/** A run from the start after which the check of the queue fails: a ping is queued two milliseconds after the timer
    ran, and a packet that is sent again in the same run of the timer comes behind it. */
module OvertakenPing {
  import opened ProxyState
  import opened ProxyServer
  import opened SessionLemmas
  import opened Draining
  import opened Effects
  import opened SoundStates
  import opened Assertions
  import opened Runs
  import opened FailingRuns
  import opened StampOrder
  import opened OrderedRuns

  // When the second client opens its session, when the timer runs, when it queues the ping, and when the queue is
  // checked.
  const OPENED := INTERVAL - 1000
  const RAN := INTERVAL + 2
  const QUEUED := RAN + 2
  const CHECKED := RAN + 3

  /** One client joins; another one has its accept response repeated when the first one is pinged. */
  function Events(): seq<Event> {
    Joining(0) + [Received(OpenPacket(2), HOST, At(OPENED)), TimerRan(At(RAN), At(QUEUED))]
  }

  ghost predicate AboutToPing(s: Snapshot) {
    && s.Sound() && s.delay == DELAY && s.interval == INTERVAL && 1 == s.connected <= |s.sessions|
    && s.pingStamp == At(1) && s.sessions[0].id in s.chains && s.chains[s.sessions[0].id] == []
    && |s.queue| == 1 && s.queue[0] in s.states
    && s.states[s.queue[0]].stamp == At(OPENED) && s.states[s.queue[0]].resends == RESENDS
  }

  lemma SecondOpens(s: Snapshot, t: Snapshot)
    requires Idle(s, 1) && t.Sound()
    ensures !Trips(Events()[3], s, t) && (Effect(Events()[3], s, t) ==> AboutToPing(t))
  {
    hide Snapshot.Sound, Accepted;
    UnusedId(s, 2);
    UnusedId(s, SERVER_ID + 2);
    if Effect(Events()[3], s, t) {
      SecondAccepted(s, t);
    }
  }

  lemma SecondAccepted(s: Snapshot, t: Snapshot)
    requires Idle(s, 1) && t.Sound() && Accepted(s, t, 2, HOST, At(OPENED))
    ensures AboutToPing(t)
  {
    hide Snapshot.Sound;
    IdleQueue(s, 1);
    assert t.sessions[..1][0] == s.sessions[0];
  }

  lemma PingOvertaken(s: Snapshot)
    requires AboutToPing(s)
    ensures Overtaken(s, At(RAN)) && Sorted(s.queue, s.states, At(RAN))
  {
    hide Snapshot.Sound;
    assert Due(s.states[s.queue[0]], s.delay, At(RAN)) && Restamped(s.states[s.queue[0]]);
    assert KeepsUp(s, s.sessions[0].id, At(RAN));
  }

  lemma TimesInOrder()
    ensures IsTime(At(RAN)) && IsTime(At(QUEUED)) && IsTime(At(CHECKED))
    ensures Before(At(RAN), At(QUEUED)) && Timeout.Recent(At(RAN), At(QUEUED)) && Before(At(QUEUED), At(CHECKED))
    ensures Elapsed(At(CHECKED), At(QUEUED)) == 1 && Elapsed(At(CHECKED), At(RAN)) == 3
  {
  }

  lemma OrderLost(s: Snapshot, t: Snapshot)
    requires AboutToPing(s) && t.Sound() && Effect(Events()[4], s, t)
    ensures !StampsOk(t.queue, t.states, t.delay, At(CHECKED))
  {
    hide Snapshot.Sound, Effect, Overtaken, At, Elapsed, Timeout.Recent;
    TimesInOrder();
    PingOvertaken(s);
    CheckAfterTimer(s, t, At(RAN), At(QUEUED), At(CHECKED));
  }

  /** What the last two events lead to. */
  lemma RunLosesOrder(chunk: CommandList, handled: nat, trace: seq<Snapshot>, last: Snapshot)
    requires Traced(Events(), handled, trace) && trace[0] == Started(chunk) && last.Sound()
    requires handled == |Events()| ==> trace[handled] == last
    requires handled < |Events()| ==> Tripped(Events()[handled], trace[handled], last)
    ensures !StampsOk(last.queue, last.states, last.delay, At(CHECKED))
  {
    hide Snapshot.Sound, Effect, Trips, StampsOk, Idle, AboutToPing;
    InitiallyIdle(chunk);
    JoinsFirst(trace[0], if handled > 0 then trace[1] else last, 0);
    JoinsSecond(trace[1], if handled > 1 then trace[2] else last, 0);
    JoinsThird(trace[2], if handled > 2 then trace[3] else last, 0);
    SecondOpens(trace[3], if handled > 3 then trace[4] else last);
    OrderLost(trace[4], last);
  }

  /** The server itself, run on these events, fails the check. */
  method Exhibit(chunk: CommandList) returns (ok: bool)
    ensures !ok
  {
    hide Server.Inv, Server.Logged, Traced, Tripped, StampsOk;
    ghost var trace;
    var server, handled;
    server, handled, trace := RunFromStart(0x7ffe, DELAY, INTERVAL, [chunk], Events());
    ValidIsSound(server);
    RunLosesOrder(chunk, handled, trace, Now(server));
    ok := CheckPackets(server, At(CHECKED));
  }
}
