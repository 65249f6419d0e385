/** A session that never answers is gone after a bounded number of runs of the timer, whatever else happens. */
module SilentSessions {
  import opened Basics
  import opened IndexSet
  import opened ProxyState
  import opened QueueLemmas
  import opened ChainLemmas
  import opened JoinLemmas
  import opened SessionLemmas
  import opened TableLemmas
  import opened History
  import opened Draining
  import opened ProxyServer
  import opened Effects
  import opened SoundStates
  import opened Timeout
  import opened Runs
  import opened StampOrder
  import opened OrderedRuns

  /** A session that owes something. */
  predicate Owing(s: Snapshot, o: nat) {
    o in s.chains && s.chains[o] != [] && s.chains[o][0].packet in s.states
  }

  /** The oldest packet that it owes. */
  function Oldest(s: Snapshot, o: nat): Addr
    requires Owing(s, o)
  {
    s.chains[o][0].packet
  }

  function OldestState(s: Snapshot, o: nat): State
    requires Owing(s, o)
  {
    s.states[Oldest(s, o)]
  }

  /** The same packet is still the oldest one. */
  predicate SameOldest(s: Snapshot, t: Snapshot, o: nat) {
    Owing(s, o) && Owing(t, o) && Oldest(t, o) == Oldest(s, o)
  }

  predicate LeftAlone(s: Snapshot, t: Snapshot, o: nat) {
    SameOldest(s, t, o) && OldestState(t, o) == OldestState(s, o)
  }

  /** It has not been touched, or has come closer to its end. */
  predicate Closer(s: Snapshot, t: Snapshot, o: nat) {
    SameOldest(s, t, o)
    && (OldestState(t, o) == OldestState(s, o) || Weight(OldestState(t, o)) < Weight(OldestState(s, o)))
  }

  /** The event is a packet from that session. */
  predicate Speaks(e: Event, s: Snapshot, o: nat) {
    e.Received? && s.Known(e.packet.sessionId) && s.SessionOf(e.packet.sessionId).id == o
  }

  lemma LinkIn(s: Snapshot, o: nat)
    requires s.Sound() && o in s.chains && s.chains[o] != []
    ensures Owing(s, o) && Oldest(s, o) in s.queue
  {
    hide QueueOk, TableOk, SessionsOk, ChainKeysOk, Recorded, OrderOk, BirthsOk, ChainsOk;
    LinkOwed(s.bodies, s.chains, o, 0);
  }

  // ---------------------------------------------------------------- the timer

  lemma FiringCloser(s: Snapshot, t: Snapshot, now: Timespec, o: nat)
    requires s.Sound() && t.Sound() && Firing(s, t, now) && Owing(s, o) && o in t.chains
    ensures Closer(s, t, o)
  {
    hide Snapshot.Sound, Dealt, Descends;
    LinkIn(t, o);
    hide Fired;
    FiredState(s.queue, s.states, now, t.queue, t.states, Oldest(s, o));
  }

  lemma FiredState(q: seq<Addr>, states: map<Addr, State>, now: Timespec, q': seq<Addr>, states': map<Addr, State>,
                   a: Addr)
    requires Fired(q, states, now, q', states') && a in states && a in states'
    ensures states'[a] == states[a] || Weight(states'[a]) < Weight(states[a])
  {
  }

  lemma {:induction false} PathCloser(path: seq<Snapshot>, now: Timespec, o: nat)
    requires FiringPath(path, now) && Owing(path[0], o) && o in path[|path| - 1].chains
    ensures Closer(path[0], path[|path| - 1], o) && path[|path| - 1].delay == path[0].delay
    decreases |path|
  {
    hide Snapshot.Sound, Firing, HeadDue;
    if |path| > 1 {
      PathRest(path, now);
      StillOnPath(path, now, o);
      FiringKeys(path[0], path[1], now);
      FiringCloser(path[0], path[1], now, o);
      PathCloser(path[1..], now, o);
    }
  }

  /** Sessions only go. */
  lemma {:induction false} StillOnPath(path: seq<Snapshot>, now: Timespec, o: nat)
    requires FiringPath(path, now) && o in path[|path| - 1].chains
    ensures o in path[0].chains && (|path| > 1 ==> o in path[1].chains)
    decreases |path|
  {
    hide Snapshot.Sound, Firing, HeadDue;
    if |path| > 1 {
      PathRest(path, now);
      StillOnPath(path[1..], now, o);
      FiringKeys(path[0], path[1], now);
    }
  }

  lemma PushSame(s: Snapshot, t: Snapshot, payload: Payload, stamp: Timespec, o: nat)
    requires s.Sound() && Owing(s, o) && Pushes(s, t, payload, stamp)
    ensures LeftAlone(s, t, o) && t.delay == s.delay
  {
    hide Snapshot.Sound, PushDatagrams, Pushed, OnlyNexts, Reached;
    var g := t.queue[|t.queue| - 1];
    var i := RecordWith(s, o);
    ReachedKeys(s.connected, g, s.sessions, s.chains, t.sessions, t.chains);
    ReachedLength(s.connected, g, s.sessions, s.chains, t.sessions, t.chains);
    if i < s.connected {
      ReachedChain(s.connected, g, s.sessions, s.chains, t.sessions, t.chains, i);
    } else {
      UnreachedChain(s.connected, g, s.sessions, s.chains, t.sessions, t.chains, i);
    }
  }

  lemma UnreachedChain(n: nat, p: Addr, sessions0: seq<Session>, chains0: map<nat, seq<Loc>>, sessions: seq<Session>,
                       chains: map<nat, seq<Loc>>, i: nat)
    requires Reached(n, p, sessions0, chains0, sessions, chains) && n <= i < |sessions0|
    requires sessions0[i].id in chains0 && sessions0[i].id in chains
    ensures chains[sessions0[i].id] == chains0[sessions0[i].id]
  {
  }

  /** The timer runs on a queue that is in order, and the clock does not go back in the meantime. */
  ghost predicate InOrderAt(s: Snapshot, now: Timespec, later: Timespec) {
    && IsTime(now) && IsTime(later) && Before(now, later) && Recent(now, later)
    && Sorted(s.queue, s.states, now)
  }

  /** A run of the timer that finds the packet due, in a queue that is in order. */
  lemma TimerCloser(s: Snapshot, t: Snapshot, now: Timespec, later: Timespec, o: nat)
    requires s.Sound() && t.Sound() && Effect(TimerRan(now, later), s, t) && Owing(s, o) && o in t.chains
    ensures Closer(s, t, o)
    ensures InOrderAt(s, now, later) && Due(OldestState(s, o), s.delay, now) ==>
      Weight(OldestState(t, o)) < Weight(OldestState(s, o))
  {
    hide Snapshot.Sound, Pushes, Firing, HeadDue, Sorted, Due, Weight, Recent, Outcome;
    var path :| TimerPath(path, s, t, now, later);
    var u := path[0];
    PingedSame(s, u, now, later, o);
    PathCloser(path, now, o);
    if InOrderAt(s, now, later) {
      SoundDelay(s);
      StillLeft(now, later, s.delay);
      var m, g := WhatTheTimerDoes(s, t, now, later, path);
      LinkIn(t, o);
      NotDueAfter(s, t, m, g, now, later, Oldest(t, o));
    }
  }

  lemma PingedSame(s: Snapshot, u: Snapshot, now: Timespec, later: Timespec, o: nat)
    requires s.Sound() && Owing(s, o) && Pinged(s, u, now, later)
    ensures LeftAlone(s, u, o) && u.delay == s.delay
  {
    hide Snapshot.Sound, Pushes;
    if PingDue(s, now) { PushSame(s, u.(pingStamp := s.pingStamp), Ping, later, o); }
  }

  lemma NotDueAfter(s: Snapshot, t: Snapshot, m: nat, g: Addr, now: Timespec, later: Timespec, a: Addr)
    requires Outcome(s, t, m, g, now, later) && a in t.queue
    ensures a in t.states && !Due(t.states[a], t.delay, now)
  {
    hide Parted, Overtaken, Due;
  }

  // ---------------------------------------------------------------- other events

  lemma AcceptedSame(s: Snapshot, t: Snapshot, clientId: nat, peer: Peer, now: Timespec, o: nat)
    requires Owing(s, o) && Accepted(s, t, clientId, peer, now)
    ensures LeftAlone(s, t, o)
  {
  }

  /** Another session completes its handshake. */
  lemma HandshakeSame(s: Snapshot, t: Snapshot, clientId: nat, now: Timespec, o: nat)
    requires s.Sound() && t.Sound() && Owing(s, o) && HandshakeDone(s, t, clientId, now)
    requires clientId < SERVER_ID && s.SessionOf(clientId).id != o
    ensures LeftAlone(s, t, o)
  {
    hide Snapshot.Sound, HandshakeDone, Kept, WithChunks;
    var p, added := HandshakeQueue(s, t, clientId, now);
    var q := Kept(s.queue, s.states.Keys - {p});
    NotTheHandshake(s, clientId, now, t, o);
    LinkIn(s, o);
    KeptMembers(s.queue, s.states.Keys - {p});
    SoundDistinct(t);
    NotAdded(q, added, Oldest(s, o));
    ChunksElsewhere(s.states - {p}, added, s.cache, now, Oldest(s, o));
  }

  lemma NotAdded(q: seq<Addr>, added: seq<Addr>, a: Addr)
    requires Distinct(q + added) && a in q
    ensures a !in added
  {
    var i :| 0 <= i < |q| && q[i] == a;
    assert forall j :: 0 <= j < |added| ==> (q + added)[|q| + j] == added[j] && (q + added)[i] == a;
  }

  lemma {:induction false} ChunksElsewhere(states: map<Addr, State>, q: seq<Addr>, cache: seq<Payload>, now: Timespec,
                                           a: Addr)
    requires |q| <= |cache| && a !in q && a in states
    ensures a in WithChunks(states, q, cache, now) && WithChunks(states, q, cache, now)[a] == states[a]
    decreases |q|
  {
    if q != [] {
      ChunksElsewhere(states, q[..|q| - 1], cache, now, a);
    }
  }

  lemma NotTheHandshake(s: Snapshot, clientId: nat, now: Timespec, t: Snapshot, o: nat)
    requires s.Sound() && Owing(s, o) && clientId < SERVER_ID
    requires HandshakeDone(s, t, clientId, now) && s.SessionOf(clientId).id != o
    ensures o in t.chains && t.chains[o] == s.chains[o] && Oldest(s, o) != s.SessionOf(clientId).head.packet
  {
    hide Snapshot.Sound, Dumped, ChunkDatagrams, OthersKept, Addresses, WithChunks, Kept;
    OpensWith(s, clientId);
    OwnPacket(s, s.lookup[clientId] - 1, o);
  }

  /** A session that is known by the id of a client is in its opening handshake. */
  lemma OpensWith(s: Snapshot, clientId: nat)
    requires s.Sound() && clientId < SERVER_ID && s.Known(clientId)
    ensures s.connected < s.lookup[clientId] && s.SessionOf(clientId).wireId != s.SessionOf(clientId).id
  {
    hide QueueOk, PacketsOk, SessionsOk, ChainKeysOk, Recorded;
    assert Registered(s.lookup, clientId);
    RecordIds(s.sessions, s.connected, s.lookup, s.lookup[clientId] - 1);
  }

  /** The packet of an opening handshake is owed by nobody else. */
  lemma OwnPacket(s: Snapshot, i: nat, o: nat)
    requires s.Sound() && s.connected <= i < |s.sessions| && s.sessions[i].wireId != s.sessions[i].id
    requires Owing(s, o) && o != s.sessions[i].id
    ensures Oldest(s, o) != s.sessions[i].head.packet
  {
    hide QueueOk, TableOk, ChainKeysOk, Recorded, OrderOk, BirthsOk, ChainsOk, Linked, Consecutive;
    assert SessionOk(s.states, s.bodies, s.chains, {}, s.sessions[i], false);
    LinkOwed(s.bodies, s.chains, o, 0);
    LinkOwed(s.bodies, s.chains, s.sessions[i].id, 0);
  }

  lemma AckedSame(s: Snapshot, t: Snapshot, i: nat, ackId: nat, o: nat)
    requires t.Sound() && Owing(s, o) && Acked(s, t, i, ackId) && s.sessions[i].id != o
    ensures LeftAlone(s, t, o) && i < |t.sessions| && t.sessions[i].id == s.sessions[i].id
  {
    hide Snapshot.Sound, Kept, AckedBodies;
    LinkIn(t, o);
  }

  lemma LeftSame(s: Snapshot, t: Snapshot, i: nat, o: nat)
    requires t.Sound() && Owing(s, o) && i < |s.sessions| && s.sessions[i].id != o
    requires Closing(s, t, i) || Closed(s, t, i)
    ensures LeftAlone(s, t, o)
  {
    hide Snapshot.Sound, Kept;
    if t != s {
      assert o in t.chains;
      LinkIn(t, o);
    }
  }

  lemma {:induction false} PushesSame(path: seq<Snapshot>, updates: seq<Update>, now: Timespec, o: nat)
    requires PushPath(path, updates, now) && Owing(path[0], o)
    ensures LeftAlone(path[0], path[|updates|], o)
    decreases |updates|
  {
    hide Snapshot.Sound, Pushes;
    if updates != [] {
      var n := |updates| - 1;
      PushesSame(path[..n + 1], updates[..n], now, o);
      PushSame(path[n], path[n + 1], updates[n].payload, now, o);
    }
  }

  lemma AnsweredSame(s: Snapshot, t: Snapshot, i: nat, remoteId: Word, updates: seq<Update>, now: Timespec, o: nat)
    requires Owing(s, o) && Answered(s, t, i, remoteId, updates, now)
    ensures LeftAlone(s, t, o)
  {
    hide Snapshot.Sound, PushPath, IsNext;
    if IsNext(s, i, remoteId) {
      var path :| Taken(path, s, t, i, remoteId, updates, now);
      PushesSame(path, updates, now, o);
    }
  }

  lemma SessionSame(s: Snapshot, t: Snapshot, i: nat, p: Packet, now: Timespec, o: nat)
    requires s.Sound() && t.Sound() && Owing(s, o) && SessionReceived(s, t, i, p, now)
    requires i < |s.sessions| && s.sessions[i].id != o
    ensures LeftAlone(s, t, o)
  {
    hide Snapshot.Sound, Acked, Closing, Closed, Answered;
    var u :| InSession(s, u, t, i, p, now);
    if p.ack { AckedSame(s, u, i, p.ackId, o); }
    if p.syn && (p.opcode == ClosingOp || p.opcode == ClosedOp) {
      LeftSame(u, t, i, o);
    } else if p.ackreq {
      AnsweredSame(u, t, i, p.remoteId, p.updates, now, o);
    }
  }

  lemma RequestSame(s: Snapshot, t: Snapshot, clientId: nat, peer: Peer, now: Timespec, o: nat)
    requires Owing(s, o) && OpenRequested(s, t, clientId, peer, now)
    ensures LeftAlone(s, t, o)
  {
    hide Accepted;
    if s.Unused(clientId) && s.HasRoom() { AcceptedSame(s, t, clientId, peer, now, o); }
  }

  lemma OpeningSame(s: Snapshot, t: Snapshot, p: Packet, peer: Peer, now: Timespec, o: nat)
    requires s.Sound() && t.Sound() && Owing(s, o) && OpeningReceived(s, t, p, peer, now) && p.sessionId < SERVER_ID
    requires !Speaks(Received(p, peer, now), s, o)
    ensures LeftAlone(s, t, o)
  {
    hide Snapshot.Sound, OpenRequested, HandshakeDone;
    if IsOpenRequest(p) {
      RequestSame(s, t, p.sessionId, peer, now, o);
    } else if !p.syn && p.ack && s.Opens(p.sessionId, peer) {
      HandshakeSame(s, t, p.sessionId, now, o);
    }
  }

  // ---------------------------------------------------------------- runs

  /** The event neither comes from that session nor closes the whole proxy. */
  ghost predicate Ignores(e: Event, s: Snapshot, o: nat) {
    !Speaks(e, s, o) && !e.Shutdown?
  }

  /** The timer runs and finds the oldest packet of the session due. */
  predicate FindsDue(e: Event, s: Snapshot, o: nat) {
    e.TimerRan? && Owing(s, o) && Due(OldestState(s, o), s.delay, e.now)
  }

  lemma EventCloser(e: Event, s: Snapshot, t: Snapshot, before: Timespec, after: Timespec, o: nat)
    requires s.Sound() && t.Sound() && Effect(e, s, t) && Ignores(e, s, o) && Owing(s, o) && o in t.chains
    requires Sorted(s.queue, s.states, before) && IsTime(before) && Timely(e, before, after)
    ensures Closer(s, t, o) && (FindsDue(e, s, o) ==> Weight(OldestState(t, o)) < Weight(OldestState(s, o)))
  {
    hide Snapshot.Sound, Sorted, OpeningReceived, SessionReceived, Weight, Recent, Due, TimerPath;
    match e {
      case TimerRan(now, later) =>
        SortedLater(s.queue, s.states, before, now);
        TimerCloser(s, t, now, later, o);
      case Restart =>
      case Received(p, peer, now) =>
        if IsOpening(p) {
          OpeningSame(s, t, p, peer, now, o);
        } else if FromSession(s, p, peer) {
          SessionSame(s, t, s.lookup[p.sessionId] - 1, p, now, o);
        }
    }
  }

  /** How many of the first `n` events find the oldest packet of the session due. */
  function Chances(events: seq<Event>, trace: seq<Snapshot>, n: nat, o: nat): nat
    requires n <= |events| && n <= |trace|
  {
    if n == 0 then 0 else Chances(events, trace, n - 1, o) + if FindsDue(events[n - 1], trace[n - 1], o) then 1 else 0
  }

  /** A session that owes something and is not heard of, in a run in which the queue stays in order. */
  ghost predicate Ignored(events: seq<Event>, handled: nat, trace: seq<Snapshot>, times: seq<Timespec>, o: nat) {
    && Traced(events, handled, trace) && InTime(events, times)
    && (forall k :: 0 <= k <= handled ==> Sorted(trace[k].queue, trace[k].states, times[k]) && o in trace[k].chains)
    && (forall k :: 0 <= k < handled ==> Ignores(events[k], trace[k], o))
    && trace[0].chains[o] != []
  }

  lemma {:induction false} EveryChanceCounts(events: seq<Event>, handled: nat, trace: seq<Snapshot>,
                                             times: seq<Timespec>, o: nat)
    requires Ignored(events, handled, trace, times, o)
    ensures Owing(trace[0], o) && SameOldest(trace[0], trace[handled], o)
    ensures Chances(events, trace, handled, o) + Weight(OldestState(trace[handled], o))
            <= Weight(OldestState(trace[0], o))
  {
    hide Snapshot.Sound, Sorted, Effect, Trips, Ignores, Timely, FindsDue, Weight;
    LinkIn(trace[0], o);
    if handled > 0 {
      var k := handled - 1;
      assert forall i :: 0 <= i < handled ==> trace[..handled][i] == trace[i];
      EveryChanceCounts(events, k, trace[..handled], times, o);
      SameChances(events, trace[..handled], trace, k, o);
      IsTimeAt(events, times, k);
      EventCloser(events[k], trace[k], trace[k + 1], times[k], times[k + 1], o);
    }
  }

  lemma {:induction false} SameChances(events: seq<Event>, a: seq<Snapshot>, b: seq<Snapshot>, n: nat, o: nat)
    requires n <= |events| && n <= |a| && n <= |b| && forall i :: 0 <= i < n ==> a[i] == b[i]
    ensures Chances(events, a, n, o) == Chances(events, b, n, o)
  {
    hide FindsDue;
    if n > 0 { SameChances(events, a, b, n - 1, o); }
  }

  /** Whatever else happens: a session that owes something and is not heard of is gone after at most thirteen runs of
      the timer that find its oldest packet due. */
  lemma SilentSessionIsGone(events: seq<Event>, handled: nat, trace: seq<Snapshot>, times: seq<Timespec>, o: nat)
    requires Ignored(events, handled, trace, times, o)
    ensures Chances(events, trace, handled, o) <= 12
  {
    hide Snapshot.Sound, Effect, Trips, Ignores, Timely, FindsDue, Sorted;
    EveryChanceCounts(events, handled, trace, times, o);
    LinkIn(trace[0], o);
    SoundQueue(trace[0]);
  }
}
