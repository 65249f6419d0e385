/** Runs in which an assertion fails when the proxy is closed, because clients have fallen silent: two clients
    that are dropped for the same packet, and one that is terminated while another stays. */
module SilentClients {
  import opened IndexSet
  import opened ProxyState
  import opened ProxyServer
  import opened JoinLemmas
  import opened SessionLemmas
  import opened ChainLemmas
  import opened History
  import opened Effects
  import opened SoundStates
  import opened Failures
  import opened Runs
  import opened FailingRuns
  import A = Acknowledgement

  /** The timer runs every 40 milliseconds after the ping. */
  function Silence(n: nat, ms: nat): seq<Event> {
    if n == 0 then [] else [Later(ms)] + Silence(n - 1, ms + 40)
  }

  const PINGED := INTERVAL + 2

  /** The second client acknowledges the ping, which is its packet 2. */
  function Answering(): Event {
    Received(AckPacket(SERVER_ID + 2, 2), HOST, At(PINGED))
  }

  function Closing(): Event {
    Shutdown(At(INTERVAL + 1000))
  }

  function PingAndClose(between: seq<Event>): seq<Event> {
    [TimerRan(At(PINGED), At(PINGED))] + (between + [Closing()])
  }

  // ---------------------------------------------------------------- the ping

  /** Both clients owe the ping, which is packet 2 of their sessions. */
  ghost predicate BothOwe(s: Snapshot, a: nat, b: nat) {
    && a in s.chains && b in s.chains && a != b && |s.queue| == 1
    && s.chains[a] == [Loc(s.queue[0], 0)] && s.chains[b] == [Loc(s.queue[0], 1)]
  }

  ghost predicate JustPinged(s: Snapshot) {
    && Alone(s, State(RESENDS, false, At(PINGED), Ping), PINGED) && Configured(s)
    && |s.sessions| == s.connected == 2
    && IsClient(s.sessions[0], 0, 2) && IsClient(s.sessions[1], 1, 2)
    && BothOwe(s, s.sessions[0].id, s.sessions[1].id)
  }

  /** The ping goes out to both. */
  lemma BothPinged(s: Snapshot, t: Snapshot)
    requires Idle(s, 2) && t.Sound()
    ensures var e := TimerRan(At(PINGED), At(PINGED));
      Effect(e, s, t) ==> !Trips(e, s, t) && JustPinged(t)
  {
    hide Snapshot.Sound, Pushes, Firing;
    var now := At(PINGED);
    if path: seq<Snapshot> :| TimerPath(path, s, t, now, now) {
      var u := path[0];
      PingShared(s, u.(pingStamp := s.pingStamp), now);
      assert !HeadDue(u, now);
      assert |path| == 1;
    }
  }

  lemma PingShared(s: Snapshot, u: Snapshot, now: Timespec)
    requires Idle(s, 2) && Pushes(s, u, Ping, now)
    ensures |u.queue| == 1 && u.queue[0] in u.states && u.states[u.queue[0]] == State(RESENDS, false, now, Ping)
    ensures u.limit == s.limit && u.cache == s.cache && u.delay == s.delay && u.interval == s.interval
    ensures |u.sessions| == u.connected == 2 && IsClient(u.sessions[0], 0, 2) && IsClient(u.sessions[1], 1, 2)
    ensures BothOwe(u, u.sessions[0].id, u.sessions[1].id)
  {
    hide Snapshot.Sound, Reached, PushDatagrams, Pushed, OnlyNexts;
    IdleQueue(s, 2);
    var p := u.queue[|u.queue| - 1];
    ReachedKeys(2, p, s.sessions, s.chains, u.sessions, u.chains);
    ReachedLength(2, p, s.sessions, s.chains, u.sessions, u.chains);
    ReachedSession(2, p, s.sessions, s.chains, u.sessions, u.chains, 0);
    ReachedSession(2, p, s.sessions, s.chains, u.sessions, u.chains, 1);
    ReachedChain(2, p, s.sessions, s.chains, u.sessions, u.chains, 0);
    ReachedChain(2, p, s.sessions, s.chains, u.sessions, u.chains, 1);
  }

  // ---------------------------------------------------------------- both fall silent

  /** The ping is still owed by two clients. */
  ghost predicate Sharing(s: Snapshot, resends: nat, ms: nat) {
    Alone(s, State(resends, false, At(ms), Ping), ms) && exists a, b :: BothOwe(s, a, b)
  }

  lemma SharedAgain(s: Snapshot, t: Snapshot, resends: nat, ms: nat)
    requires Sharing(s, resends, ms) && resends > 0 && ms + 40 < INTERVAL + 1000
    requires t.Sound() && Firing(s, t, At(ms + 40))
    ensures Sharing(t, resends - 1, ms + 40)
  {
    hide Firing, Alone;
    SentAgain(s, t, State(resends, false, At(ms), Ping), ms);
    var a, b :| BothOwe(s, a, b);
    assert BothOwe(t, a, b);
  }

  /** Two sessions that owe a packet are counted. */
  lemma TwoOwe(s: Snapshot, resends: nat, ms: nat)
    requires Sharing(s, resends, ms)
    ensures s.queue[0] in s.bodies && s.bodies[s.queue[0]].remaining >= 2
  {
    hide QueueOk, TableOk, SessionsOk, ChainKeysOk, Recorded, OrderOk, BirthsOk, ChainsOk;
    var a, b :| BothOwe(s, a, b);
    LinkOwed(s.bodies, s.chains, a, 0);
    LinkOwed(s.bodies, s.chains, b, 0);
  }

  lemma {:induction false} SilenceFails(s: Snapshot, n: nat, ms: nat)
    requires Sharing(s, n, ms) && n <= RESENDS && PINGED <= ms < INTERVAL + 500 - 40 * n
    ensures Fails(s, Silence(n + 1, ms) + [Closing()])
    decreases n
  {
    hide Trips, Effect, Snapshot.Sound, BothOwe, Fails, Firing, Silence, At, Alone;
    var end := [Closing()];
    var rest := Silence(n, ms + 40) + end;
    SilenceStarts(n, ms, end);
    forall t: Snapshot | t.Sound() && Effect(Later(ms), s, t)
      ensures !Trips(Later(ms), s, t) && Fails(t, rest)
    {
      FiresOnce(s, t, State(n, false, At(ms), Ping), ms);
      if n > 0 {
        SharedAgain(s, t, n, ms);
        SilenceFails(t, n - 1, ms + 40);
      } else {
        GivesUp(s, t, ms);
      }
    }
    FailsStep(s, Later(ms), rest);
  }

  lemma SilenceStarts(n: nat, ms: nat, end: seq<Event>)
    ensures Silence(n + 1, ms) + end == [Later(ms)] + (Silence(n, ms + 40) + end)
    ensures n == 0 ==> Silence(n, ms + 40) + end == end
  {
  }

  /** The timer gives up on the packet. */
  lemma GivesUp(s: Snapshot, t: Snapshot, ms: nat)
    requires Sharing(s, 0, ms) && t.Sound() && Firing(s, t, At(ms + 40))
    ensures Fails(t, [Closing()])
  {
    hide Snapshot.Sound, Firing;
    TwoOwe(s, 0, ms);
    forall u: Snapshot
      ensures Trips(Closing(), t, u)
    {
      ClosingAfterSharedTimeout(s, t, At(ms + 40), At(INTERVAL + 1000), u);
    }
  }

  /** Two clients join, are pinged and fall silent, and the proxy is closed. */
  function TwoSilentClients(): seq<Event> {
    Joining(0) + (Joining(1) + PingAndClose(Silence(11, PINGED)))
  }

  /** Two clients join. */
  lemma JoinedFails(chunk: CommandList, rest: seq<Event>)
    requires rest != [] && forall s: Snapshot :: Idle(s, 2) ==> Fails(s, rest)
    ensures Fails(Started(chunk), Joining(0) + (Joining(1) + rest))
  {
    hide Trips, Effect, Snapshot.Sound, Idle, Fails, Joining;
    forall s: Snapshot | Idle(s, 1)
      ensures Fails(s, Joining(1) + rest)
    {
      JoiningFails(s, 1, rest);
    }
    InitiallyIdle(chunk);
    JoiningFails(Started(chunk), 0, Joining(1) + rest);
  }

  /** They are pinged. */
  lemma PingedFails(s: Snapshot, rest: seq<Event>)
    requires Idle(s, 2) && rest != [] && forall t: Snapshot :: JustPinged(t) ==> Fails(t, rest)
    ensures Fails(s, [TimerRan(At(PINGED), At(PINGED))] + rest)
  {
    var ping := TimerRan(At(PINGED), At(PINGED));
    hide Trips, Effect, Snapshot.Sound, Idle, Fails, JustPinged, At;
    forall t: Snapshot | t.Sound() && Effect(ping, s, t)
      ensures !Trips(ping, s, t) && Fails(t, rest)
    {
      BothPinged(s, t);
    }
    FailsStep(s, ping, rest);
  }

  /** From the start, with any cached state of one packet: the run trips an assertion when the proxy is closed,
      and nowhere before. */
  lemma ClosingFails(chunk: CommandList)
    ensures Fails(Started(chunk), TwoSilentClients())
  {
    hide Fails, Joining, Silence, Idle, Alone;
    var rest := Silence(11, PINGED) + [Closing()];
    forall t: Snapshot | JustPinged(t)
      ensures Fails(t, rest)
    {
      SilenceFails(t, 10, PINGED);
    }
    forall s: Snapshot | Idle(s, 2)
      ensures Fails(s, PingAndClose(Silence(11, PINGED)))
    {
      PingedFails(s, rest);
    }
    JoinedFails(chunk, PingAndClose(Silence(11, PINGED)));
  }

  // ---------------------------------------------------------------- one falls silent

  /** There is one packet in the queue, and a session that owes nothing. */
  ghost predicate OneOwes(s: Snapshot, state: State, ms: nat) {
    Alone(s, state, ms) && exists b :: b in s.chains && s.chains[b] == []
  }

  lemma OwedAgain(s: Snapshot, t: Snapshot, state: State, ms: nat)
    requires OneOwes(s, state, ms) && state.resends > 0 && t.Sound() && Firing(s, t, At(ms + 40))
    requires ms + 40 < INTERVAL + 1000
    ensures OneOwes(t, state.(resends := state.resends - 1, stamp := At(ms + 40)), ms + 40)
  {
    hide Firing, Alone;
    SentAgain(s, t, state, ms);
  }

  /** The timer gives up on the ping, which becomes a closing request for the silent client alone. */
  lemma OneDropped(s: Snapshot, t: Snapshot, state: State, ms: nat)
    requires OneOwes(s, state, ms) && state.resends == 0 && !state.closing
    requires t.Sound() && Firing(s, t, At(ms + 40)) && ms + 40 < INTERVAL + 1000
    ensures OneOwes(t, State(RESENDS_CLOSING, true, At(ms + 40), CloseRequest), ms + 40)
  {
    hide Snapshot.Sound, Descends, Dealt, ClosingsSent, OwnersBelow, IndexOk, FirstForOwners, Reduced;
    var b :| b in s.chains && s.chains[b] == [];
    StampedAnew(s, t, At(ms + 40));
    NotAnOwner(s, s.queue[0], b);
    var body := s.bodies[s.queue[0]];
    StillNothing(s.chains, OwnersBelow(body, body.remaining), t.chains, b);
  }

  lemma StillNothing(chains0: map<nat, seq<Loc>>, dropped: set<nat>, chains: map<nat, seq<Loc>>, b: nat)
    requires Reduced(chains0, dropped, chains) && b in chains0 && b !in dropped
    ensures b in chains && chains[b] == chains0[b]
  {
  }

  /** The second client acknowledges the ping. */
  lemma OneAnswers(s: Snapshot, t: Snapshot)
    requires JustPinged(s) && t.Sound()
    ensures var e := Answering();
      && !Trips(e, s, t)
      && (Effect(e, s, t) ==> OneOwes(t, State(RESENDS, false, At(PINGED), Ping), PINGED))
  {
    hide Snapshot.Sound, Acked;
    var e := Answering();
    IdOf(s, 1);
    if Effect(e, s, t) {
      var u :| InSession(s, u, t, 1, e.packet, At(PINGED));
      AnswerCounts(s, t);
    }
  }

  lemma AnswerCounts(s: Snapshot, t: Snapshot)
    requires JustPinged(s) && t.Sound() && Acked(s, t, 1, 2)
    ensures OneOwes(t, State(RESENDS, false, At(PINGED), Ping), PINGED)
  {
    hide Snapshot.Sound, AckedBodies;
    assert A.Released(2, 1, 2) == 1;
    var a, b := s.sessions[0].id, s.sessions[1].id;
    assert t.chains[a] == [Loc(s.queue[0], 0)] && t.chains[b] == [];
    LinkThere(t, a, 0);
    assert Kept(s.queue[1..], t.states.Keys) == [];
    assert t.queue == [s.queue[0]];
  }

  lemma LinkThere(s: Snapshot, o: nat, i: nat)
    requires s.Sound() && o in s.chains && i < |s.chains[o]|
    ensures s.chains[o][i].packet in s.states
  {
    hide QueueOk, TableOk, SessionsOk, ChainKeysOk, Recorded, OrderOk, BirthsOk, ChainsOk;
    LinkOwed(s.bodies, s.chains, o, i);
  }

  /** The state of the packet `n` timer runs before its session is terminated. */
  function StateBefore(n: nat, ms: nat): State {
    if n <= 2 then State(if n > 0 then n - 1 else 0, true, At(ms), CloseRequest) else State(n - 3, false, At(ms), Ping)
  }

  lemma {:induction false} SilenceTerminates(s: Snapshot, n: nat, ms: nat)
    requires 0 < n <= 13 && OneOwes(s, StateBefore(n, ms), ms) && PINGED <= ms < INTERVAL + 600 - 40 * n
    ensures Fails(s, Silence(n, ms) + [Closing()])
    decreases n
  {
    hide Trips, Effect, Snapshot.Sound, Fails, Firing, Silence, At, OneOwes;
    var end := [Closing()];
    var rest := Silence(n - 1, ms + 40) + end;
    SilenceStarts(n - 1, ms, end);
    forall t: Snapshot | t.Sound() && Effect(Later(ms), s, t)
      ensures !Trips(Later(ms), s, t) && Fails(t, rest)
    {
      OneIsAlone(s, StateBefore(n, ms), ms);
      FiresOnce(s, t, StateBefore(n, ms), ms);
      if n == 1 {
        Terminates(s, t, ms);
      } else {
        if n == 3 {
          OneDropped(s, t, StateBefore(n, ms), ms);
        } else {
          OwedAgain(s, t, StateBefore(n, ms), ms);
        }
        SilenceTerminates(t, n - 1, ms + 40);
      }
    }
    FailsStep(s, Later(ms), rest);
  }

  lemma OneIsAlone(s: Snapshot, state: State, ms: nat)
    requires OneOwes(s, state, ms)
    ensures Alone(s, state, ms)
  {
  }

  /** The timer terminates the silent client, whose packet was the last one. */
  lemma Terminates(s: Snapshot, t: Snapshot, ms: nat)
    requires OneOwes(s, StateBefore(1, ms), ms) && t.Sound() && Firing(s, t, At(ms + 40))
    ensures Fails(t, [Closing()])
  {
    hide Snapshot.Sound, Firing;
    var b :| b in s.chains && s.chains[b] == [];
    var i := RecordWith(s, b);
    forall u: Snapshot
      ensures Trips(Closing(), t, u)
    {
      ClosingAfterLastTermination(s, t, At(ms + 40), At(INTERVAL + 1000), i, u);
    }
  }

  /** Two clients join and are pinged, one answers, the other is terminated, and the proxy is closed. */
  function OneSilentClient(): seq<Event> {
    var answer := Answering();
    Joining(0) + (Joining(1) + PingAndClose([answer] + Silence(13, PINGED)))
  }

  lemma AnsweredFails(s: Snapshot, rest: seq<Event>)
    requires JustPinged(s) && rest != []
    requires forall t: Snapshot :: OneOwes(t, State(RESENDS, false, At(PINGED), Ping), PINGED) ==> Fails(t, rest)
    ensures Fails(s, [Answering()] + rest)
  {
    var answer := Answering();
    hide Trips, Effect, Snapshot.Sound, Fails, OneOwes, JustPinged;
    AnswerTripsNothing(s);
    forall t: Snapshot | t.Sound() && Effect(answer, s, t)
      ensures !Trips(answer, s, t) && Fails(t, rest)
    {
      OneAnswers(s, t);
    }
    FailsStep(s, answer, rest);
  }

  lemma AnswerTripsNothing(s: Snapshot)
    requires JustPinged(s)
    ensures forall t: Snapshot :: !Trips(Answering(), s, t)
  {
    OneAnswers(s, s);
  }

  /** The run trips the assertion about the tail of an empty queue when the proxy is closed, and nothing
      before. */
  lemma TerminationFails(chunk: CommandList)
    ensures Fails(Started(chunk), OneSilentClient())
  {
    hide Fails, Joining, Silence, Idle, JustPinged, OneOwes;
    var answer := Answering();
    var rest := Silence(13, PINGED) + [Closing()];
    forall t: Snapshot | OneOwes(t, State(RESENDS, false, At(PINGED), Ping), PINGED)
      ensures Fails(t, rest)
    {
      SilenceTerminates(t, 13, PINGED);
    }
    forall s: Snapshot | JustPinged(s)
      ensures Fails(s, [answer] + rest)
    {
      AnsweredFails(s, rest);
    }
    assert [answer] + rest == ([answer] + Silence(13, PINGED)) + [Closing()];
    forall s: Snapshot | Idle(s, 2)
      ensures Fails(s, PingAndClose([answer] + Silence(13, PINGED)))
    {
      PingedFails(s, [answer] + rest);
    }
    JoinedFails(chunk, PingAndClose([answer] + Silence(13, PINGED)));
  }

  // ---------------------------------------------------------------- the server itself

  /** The server run on these events stops at the shutdown. */
  method Exhibit(chunk: CommandList, one: bool) returns (server: Server, handled: nat)
    ensures var events := if one then OneSilentClient() else TwoSilentClients();
      server.Valid() && handled == |events| - 1 && events[handled].Shutdown?
  {
    hide Fails, Server.Inv, Server.Logged, OneSilentClient, TwoSilentClients;
    EventsWellFormed();
    ClosingFails(chunk);
    TerminationFails(chunk);
    server, handled := RunToFailure(chunk, if one then OneSilentClient() else TwoSilentClients());
  }

  lemma {:induction false} SilenceWellFormed(n: nat, ms: nat)
    ensures forall i :: 0 <= i < |Silence(n, ms)| ==> WellFormed(Silence(n, ms)[i])
  {
    if n > 0 { SilenceWellFormed(n - 1, ms + 40); }
  }

  lemma EventsWellFormed()
    ensures forall i :: 0 <= i < |TwoSilentClients()| ==> WellFormed(TwoSilentClients()[i])
    ensures forall i :: 0 <= i < |OneSilentClient()| ==> WellFormed(OneSilentClient()[i])
    ensures TwoSilentClients() != [] && TwoSilentClients()[|TwoSilentClients()| - 1].Shutdown?
    ensures OneSilentClient() != [] && OneSilentClient()[|OneSilentClient()| - 1].Shutdown?
  {
    SilenceWellFormed(11, PINGED);
    SilenceWellFormed(13, PINGED);
    hide Silence;
  }
}
