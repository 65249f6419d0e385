/** A run in which the timer trips the assertion that the delay it returns fits a signed number, because the clock
    was set back by more than that many milliseconds. */
module ClockSetBack {
  import opened Basics
  import opened ProxyState
  import opened ProxyServer
  import opened SessionLemmas
  import opened Effects
  import opened FailingRuns

  /** When neither a ping nor the packet at the head of the queue is due, running the timer changes nothing. It
      trips its assertion exactly when the nearer of the two delays is too far. */
  lemma NothingDueTrips(e: Event, s: Snapshot, t: Snapshot)
    requires e.TimerRan? && t.Sound() && !PingDue(s, e.now) && !HeadDue(s, e.now) && Effect(e, s, t)
    ensures t == s
    ensures Trips(e, s, t) <==> 2147483647 <= Min(PingLeft(s, e.now), HeadLeft(s, e.now)) != 4294967295
  {
    hide Snapshot.Sound, Firing, Pushes;
    var path :| TimerPath(path, s, t, e.now, e.later);
    assert path[0] == s;
    assert |path| == 1;
  }

  const FAR := Timespec(2147484, 0)
  const BACK := Timespec(0, 0)

  function Opens(): Event {
    Received(OpenPacket(1), HOST, FAR)
  }

  function Timer(): Event {
    TimerRan(BACK, BACK)
  }

  /** A client opens a session, and then the clock is set back. */
  function SetBack(): seq<Event> {
    [Opens()] + [Timer()]
  }

  /** The accept response is queued, stamped with the later time. */
  ghost predicate Answered(s: Snapshot) {
    && s.Sound() && s.connected == 0 && s.delay == DELAY && |s.queue| == 1
    && s.queue[0] in s.states && s.states[s.queue[0]].stamp == FAR
  }

  lemma FirstOpens(chunk: CommandList, t: Snapshot)
    requires t.Sound()
    ensures !Trips(Opens(), Started(chunk), t)
    ensures Effect(Opens(), Started(chunk), t) ==> Answered(t)
  {
    hide Snapshot.Sound;
  }

  lemma TimerFails(s: Snapshot)
    requires Answered(s)
    ensures Fails(s, [Timer()])
  {
    hide Snapshot.Sound, Effect, Trips;
    assert !HeadDue(s, BACK) && HeadLeft(s, BACK) == 2147484020;
    forall t: Snapshot | t.Sound() && Effect(Timer(), s, t)
      ensures Trips(Timer(), s, t)
    {
      NothingDueTrips(Timer(), s, t);
    }
  }

  /** From the start: the timer trips, and nothing before it. */
  lemma SetBackFails(chunk: CommandList)
    ensures Fails(Started(chunk), SetBack())
  {
    hide Snapshot.Sound, Effect, Trips, Fails, Answered;
    InitiallySound(chunk);
    OpeningTripsNothing(chunk);
    forall t: Snapshot | t.Sound() && Effect(Opens(), Started(chunk), t)
      ensures !Trips(Opens(), Started(chunk), t) && Fails(t, [Timer()])
    {
      FirstOpens(chunk, t);
      TimerFails(t);
    }
    FailsStep(Started(chunk), Opens(), [Timer()]);
  }

  lemma InitiallySound(chunk: CommandList)
    ensures Started(chunk).Sound()
  {
  }

  lemma OpeningTripsNothing(chunk: CommandList)
    ensures forall t: Snapshot :: !Trips(Opens(), Started(chunk), t)
  {
    InitiallySound(chunk);
    FirstOpens(chunk, Started(chunk));
  }

  /** The server itself stops at the timer. */
  method Exhibit(chunk: CommandList) returns (server: Server, handled: nat)
    ensures server.Valid() && handled == 1
  {
    hide Fails, Server.Inv, Server.Logged;
    SetBackFails(chunk);
    server, handled := RunToFailure(chunk, SetBack());
  }
}
