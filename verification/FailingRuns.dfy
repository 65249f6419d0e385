/** Runs from the start in which the program's own assertions fail: how such a run is told from others, and how
    clients join in it. */
module FailingRuns {
  import opened Basics
  import opened IndexSet
  import opened ProxyState
  import opened ProxyServer
  import opened SessionLemmas
  import opened TableLemmas
  import opened History
  import opened Draining
  import opened Effects
  import opened SoundStates
  import opened Runs
  import A = Acknowledgement

  // ---------------------------------------------------------------- runs that fail

  /** A state from which every course that the events can take trips an assertion at the last of them, and
      none before. */
  ghost predicate Fails(s: Snapshot, events: seq<Event>)
    decreases |events|
  {
    && events != []
    && var e := events[0];
    if |events| == 1 then
      forall t: Snapshot :: t.Sound() && (e.TimerRan? ==> Effect(e, s, t)) ==> Trips(e, s, t)
    else
      && (!e.TimerRan? ==> forall t: Snapshot :: !Trips(e, s, t))
      && forall t: Snapshot :: t.Sound() && Effect(e, s, t) ==> !Trips(e, s, t) && Fails(t, events[1..])
  }

  lemma FailsStep(s: Snapshot, e: Event, rest: seq<Event>)
    requires rest != [] && (!e.TimerRan? ==> forall t: Snapshot :: !Trips(e, s, t))
    requires forall t: Snapshot :: t.Sound() && Effect(e, s, t) ==> !Trips(e, s, t) && Fails(t, rest)
    ensures Fails(s, [e] + rest)
  {
    hide Trips, Effect, Snapshot.Sound;
    assert ([e] + rest)[1..] == rest;
  }

  /** A run of such events stops at the last one. */
  lemma {:induction false} FailureIsReached(events: seq<Event>, handled: nat, trace: seq<Snapshot>, last: Snapshot,
                                            k: nat)
    requires Traced(events, handled, trace) && last.Sound()
    requires handled < |events| ==> Tripped(events[handled], trace[handled], last)
    requires k <= handled && k < |events| && Fails(trace[k], events[k..])
    ensures handled == |events| - 1
    decreases handled - k
  {
    hide Trips, Effect, Snapshot.Sound;
    var rest := events[k..];
    assert rest[0] == events[k] && rest[1..] == events[k + 1..];
    if |rest| > 1 {
      NotYet(trace[k], rest, last);
      if k < handled {
        FailureIsReached(events, handled, trace, last, k + 1);
      }
    } else if k < handled {
      AtLast(trace[k], rest, trace[k + 1]);
    }
  }

  lemma NotYet(s: Snapshot, events: seq<Event>, t: Snapshot)
    requires Fails(s, events) && |events| > 1 && t.Sound()
    ensures !Tripped(events[0], s, t)
  {
    hide Trips, Effect, Snapshot.Sound;
  }

  lemma AtLast(s: Snapshot, events: seq<Event>, t: Snapshot)
    requires Fails(s, events) && |events| == 1 && t.Sound() && Effect(events[0], s, t)
    ensures Trips(events[0], s, t)
  {
    hide Trips, Effect, Snapshot.Sound;
  }

  /** The server, run on such events from the start, stops at the last of them. */
  method RunToFailure(chunk: CommandList, events: seq<Event>) returns (server: Server, handled: nat)
    requires forall i :: 0 <= i < |events| ==> WellFormed(events[i])
    requires Fails(Started(chunk), events)
    ensures server.Valid() && handled == |events| - 1
  {
    hide Fails, Traced, Server.Inv, Server.Logged, Trips, Effect, Snapshot.Sound, Tripped;
    ghost var trace;
    server, handled, trace := RunFromStart(0x7ffe, DELAY, INTERVAL, [chunk], events);
    ValidIsSound(server);
    assert events[0..] == events;
    NotEmpty(chunk, events);
    FailureIsReached(events, handled, trace, Now(server), 0);
  }

  lemma NotEmpty(chunk: CommandList, events: seq<Event>)
    requires Fails(Started(chunk), events)
    ensures events != []
  {
    hide Trips, Effect, Snapshot.Sound;
  }

  // ---------------------------------------------------------------- clients that join

  const HOST := Peer(1, 9910)

  // The timers of the server, in milliseconds.
  const DELAY := 20
  const INTERVAL := 60000

  /** `ms` milliseconds after the server was started. */
  function At(ms: nat): Timespec {
    Timespec(ms / 1000, ms % 1000 * 1000000)
  }

  lemma ElapsedAt(a: nat, b: nat)
    ensures Elapsed(At(a), At(b)) == a - b
  {
  }

  function OpenPacket(n: Word): Packet {
    Packet(SYN_LEN, true, false, false, OpenOp, n, 0, 0, [])
  }

  function AckPacket(sessionId: Word, ackId: Word): Packet {
    Packet(HEADER, false, true, false, OtherOp, sessionId, ackId, 0, [])
  }

  /** Client `n`, counted from 0, opens a session and acknowledges the cached state, which is one packet. */
  function Joining(n: nat): seq<Event>
    requires n < 0x7ffe
  {
    [Received(OpenPacket(n + 1), HOST, At(1)),
     Received(AckPacket(n + 1, 0), HOST, At(1)),
     Received(AckPacket(SERVER_ID + n + 1, 1), HOST, At(1))]
  }

  ghost function Started(chunk: CommandList): Snapshot {
    Initial(0x7ffe, DELAY, INTERVAL, [chunk])
  }

  /** The server as it was set up. */
  ghost predicate Configured(s: Snapshot) {
    s.Sound() && s.limit == 0x7ffe && |s.cache| == 1 && s.delay == DELAY && s.interval == INTERVAL
  }

  /** Connected session `i` of client `i`, which has been sent `sent` packets. */
  predicate IsClient(s: Session, i: nat, sent: nat) {
    s.id == s.wireId == SERVER_ID + i + 1 && s.peer == HOST && s.remoteId == sent
  }

  /** `n` clients are connected and owe nothing. */
  ghost predicate Idle(s: Snapshot, n: nat) {
    && Configured(s) && n < 0x7ffe
    && |s.sessions| == s.connected == n && s.sessionIdLast == n && !s.shutting
    && (n > 0 ==> s.pingStamp == At(1))
    && (forall i :: 0 <= i < n ==> IsClient(s.sessions[i], i, 1) && s.sessions[i].id in s.chains)
    && forall o :: o in s.chains ==> s.chains[o] == []
  }

  /** `n` clients are connected and owe nothing, and another one is in its opening handshake. */
  ghost predicate Opening(s: Snapshot, n: nat) {
    && Configured(s) && n + 1 < 0x7ffe
    && |s.sessions| == s.connected + 1 == n + 1 == s.sessionIdLast && !s.shutting
    && (n > 0 ==> s.pingStamp == At(1))
    && (forall i :: 0 <= i < n ==> IsClient(s.sessions[i], i, 1) && s.sessions[i].id in s.chains)
    && s.sessions[n].id == SERVER_ID + n + 1 && s.sessions[n].wireId == n + 1 && s.sessions[n].peer == HOST
    && forall o :: o in s.chains && o != s.sessions[n].id ==> s.chains[o] == []
  }

  /** `n` clients are connected; the last of them owes one packet, which it has been sent as number 1. */
  ghost predicate Dumped(s: Snapshot, n: nat) {
    && Configured(s) && 0 < n < 0x7ffe
    && |s.sessions| == s.connected == n && s.sessionIdLast == n && !s.shutting && s.pingStamp == At(1)
    && (forall i :: 0 <= i < n ==> IsClient(s.sessions[i], i, 1) && s.sessions[i].id in s.chains)
    && |s.chains[s.sessions[n - 1].id]| == 1
    && forall o :: o in s.chains && o != s.sessions[n - 1].id ==> s.chains[o] == []
  }

  /** The client's opening request is accepted ... */
  lemma JoinsFirst(s: Snapshot, t: Snapshot, n: nat)
    requires Idle(s, n) && n + 1 < 0x7ffe && t.Sound()
    ensures !Trips(Joining(n)[0], s, t)
    ensures Effect(Joining(n)[0], s, t) ==> Opening(t, n)
  {
    hide Snapshot.Sound, Accepted;
    UnusedId(s, n + 1);
    UnusedId(s, SERVER_ID + n + 1);
    if Effect(Joining(n)[0], s, t) {
      AcceptedOpens(s, t, n);
    }
  }

  lemma AcceptedOpens(s: Snapshot, t: Snapshot, n: nat)
    requires Idle(s, n) && n + 1 < 0x7ffe && t.Sound() && Accepted(s, t, n + 1, HOST, At(1))
    ensures Opening(t, n)
  {
    hide Snapshot.Sound;
    forall i | 0 <= i < n
      ensures t.sessions[i] == s.sessions[i]
    {
      assert t.sessions[i] == t.sessions[..n][i];
    }
  }

  /** ... its acknowledgement completes the handshake ... */
  lemma JoinsSecond(s: Snapshot, t: Snapshot, n: nat)
    requires Opening(s, n) && t.Sound()
    ensures !Trips(Joining(n)[1], s, t)
    ensures Effect(Joining(n)[1], s, t) ==> Dumped(t, n + 1)
  {
    hide Snapshot.Sound, HandshakeDone;
    IdOf(s, n);
    if Effect(Joining(n)[1], s, t) {
      HandshakeDumps(s, t, n);
    }
  }

  lemma HandshakeDumps(s: Snapshot, t: Snapshot, n: nat)
    requires Opening(s, n) && t.Sound() && HandshakeDone(s, t, n + 1, At(1))
    ensures Dumped(t, n + 1)
  {
    hide Snapshot.Sound, SessionLemmas.Dumped, Kept, Addresses, ChunkDatagrams;
    IdOf(s, n);
    assert Swapped(s.sessions, n, n) == s.sessions;
  }

  /** ... and the acknowledgement of the cached state leaves it owing nothing. */
  lemma JoinsThird(s: Snapshot, t: Snapshot, n: nat)
    requires Dumped(s, n + 1) && t.Sound()
    ensures !Trips(Joining(n)[2], s, t)
    ensures Effect(Joining(n)[2], s, t) ==> Idle(t, n + 1)
  {
    hide Snapshot.Sound, Acked;
    IdOf(s, n);
    if Effect(Joining(n)[2], s, t) {
      var u :| InSession(s, u, t, n, Joining(n)[2].packet, At(1));
      AcknowledgesDump(s, t, n);
    }
  }

  lemma AcknowledgesDump(s: Snapshot, t: Snapshot, n: nat)
    requires Dumped(s, n + 1) && t.Sound() && Acked(s, t, n, 1)
    ensures Idle(t, n + 1)
  {
    hide Snapshot.Sound, Kept, Framed;
    assert A.Passes(1, A.FirstId(1, 1));
    assert A.Released(1, 1, 1) == 1;
  }

  /** When nobody owes anything, nothing is queued. */
  lemma IdleQueue(s: Snapshot, n: nat)
    requires Idle(s, n)
    ensures s.queue == []
  {
    if s.queue != [] {
      SoundQueue(s);
      SoundKeys(s);
      hide Snapshot.Sound;
      var o, i := OwnedLink(s, s.queue[0]);
    }
  }

  lemma JoiningFails(s: Snapshot, n: nat, rest: seq<Event>)
    requires Idle(s, n) && n < 100 && rest != []
    requires forall t: Snapshot :: Idle(t, n + 1) ==> Fails(t, rest)
    ensures Fails(s, Joining(n) + rest)
  {
    var events := Joining(n);
    NoTimer(n);
    hide Trips, Effect, Snapshot.Sound, Idle, Opening, Dumped, Fails, Joining, Configured;
    JoinTripsNothing(s, n);
    forall t: Snapshot | t.Sound() && Effect(events[0], s, t)
      ensures !Trips(events[0], s, t) && Fails(t, [events[1]] + ([events[2]] + rest))
    {
      JoinsFirst(s, t, n);
      SecondTripsNothing(t, n);
      forall u: Snapshot | u.Sound() && Effect(events[1], t, u)
        ensures !Trips(events[1], t, u) && Fails(u, [events[2]] + rest)
      {
        JoinsSecond(t, u, n);
        ThirdTripsNothing(u, n);
        forall v: Snapshot | v.Sound() && Effect(events[2], u, v)
          ensures !Trips(events[2], u, v) && Fails(v, rest)
        {
          JoinsThird(u, v, n);
        }
        FailsStep(u, events[2], rest);
      }
      FailsStep(t, events[1], [events[2]] + rest);
    }
    FailsStep(s, events[0], [events[1]] + ([events[2]] + rest));
    assert events + rest == [events[0]] + ([events[1]] + ([events[2]] + rest));
  }

  lemma NoTimer(n: nat)
    requires n < 0x7ffe
    ensures |Joining(n)| == 3 && forall i :: 0 <= i < 3 ==> !Joining(n)[i].TimerRan?
  {
  }

  lemma JoinTripsNothing(s: Snapshot, n: nat)
    requires Idle(s, n) && n + 1 < 0x7ffe
    ensures forall t: Snapshot :: !Trips(Joining(n)[0], s, t)
  {
    JoinsFirst(s, s, n);
  }

  lemma SecondTripsNothing(s: Snapshot, n: nat)
    requires Opening(s, n)
    ensures forall t: Snapshot :: !Trips(Joining(n)[1], s, t)
  {
    JoinsSecond(s, s, n);
  }

  lemma ThirdTripsNothing(s: Snapshot, n: nat)
    requires Dumped(s, n + 1)
    ensures forall t: Snapshot :: !Trips(Joining(n)[2], s, t)
  {
    JoinsThird(s, s, n);
  }

  lemma InitiallyIdle(chunk: CommandList)
    ensures Idle(Started(chunk), 0)
  {
  }

  // ---------------------------------------------------------------- one packet in the queue

  /** There is a single packet in the queue, in the given state, stamped `ms` milliseconds after the start. */
  ghost predicate Alone(s: Snapshot, state: State, ms: nat) {
    && s.Sound() && s.delay == DELAY && s.interval == INTERVAL && s.pingStamp == At(INTERVAL + 2)
    && |s.queue| == 1 && s.queue[0] in s.states && s.states[s.queue[0]] == state && state.stamp == At(ms)
    && INTERVAL + 2 <= ms < INTERVAL + 1000
  }

  /** The timer runs 40 milliseconds after that. */
  function Later(ms: nat): Event {
    TimerRan(At(ms + 40), At(ms + 40))
  }

  /** It fires once, since the packet is stamped anew or gone, and trips nothing. */
  lemma FiresOnce(s: Snapshot, t: Snapshot, state: State, ms: nat)
    requires Alone(s, state, ms)
    ensures Effect(Later(ms), s, t) ==> Firing(s, t, At(ms + 40)) && !Trips(Later(ms), s, t)
  {
    hide Snapshot.Sound, Pushes, Firing, Elapsed, At;
    var now := At(ms + 40);
    ElapsedAt(ms + 40, ms);
    ElapsedAt(ms + 40, INTERVAL + 2);
    if path: seq<Snapshot> :| TimerPath(path, s, t, now, now) {
      assert path[0] == s && HeadDue(s, now);
      StampedAnew(s, path[1], now);
      assert |path| == 2;
    }
  }

  lemma StampedAnew(s: Snapshot, t: Snapshot, now: Timespec)
    requires |s.queue| == 1 && s.queue[0] in s.states && Firing(s, t, now) && s.delay == DELAY
    ensures !HeadDue(t, now) && (t.queue == s.queue || t.queue == []) && HeadLeft(t, now) in {DELAY, NEVER}
    ensures var state := s.states[s.queue[0]];
      state.resends > 0 || !state.closing ==>
        && t.queue == s.queue && s.queue[0] in t.states
        && t.states[s.queue[0]] == if state.resends > 0 then state.(resends := state.resends - 1, stamp := now)
                                   else State(RESENDS_CLOSING, true, now, CloseRequest)
  {
    hide Handled, Descends, Dealt;
    assert Kept(s.queue[1..], t.states.Keys) == [];
  }

  /** A packet that is sent again. */
  lemma SentAgain(s: Snapshot, t: Snapshot, state: State, ms: nat)
    requires Alone(s, state, ms) && state.resends > 0 && ms + 40 < INTERVAL + 1000
    requires t.Sound() && Firing(s, t, At(ms + 40))
    ensures Alone(t, state.(resends := state.resends - 1, stamp := At(ms + 40)), ms + 40) && t.chains == s.chains
    ensures t.queue == s.queue
  {
    hide Snapshot.Sound, Descends, Dealt, Transmissions;
    StampedAnew(s, t, At(ms + 40));
  }
}
