/** Runs in which the queue stays in the order in which its packets are due, and what the run-time check of that
    order comes to. */
module OrderedRuns {
  import opened Basics
  import opened IndexSet
  import opened ProxyState
  import opened QueueLemmas
  import opened ChainLemmas
  import opened JoinLemmas
  import opened SessionLemmas
  import opened History
  import opened Draining
  import opened ProxyServer
  import opened Effects
  import opened SoundStates
  import opened Timeout
  import opened Assertions
  import opened Runs
  import opened StampOrder

  // ---------------------------------------------------------------- other events

  lemma SortedLater(q: seq<Addr>, states: map<Addr, State>, before: Timespec, now: Timespec)
    requires Sorted(q, states, before) && Before(before, now)
    ensures Sorted(q, states, now)
  {
  }

  lemma AppendSorted(q: seq<Addr>, states: map<Addr, State>, p: Addr, state: State, now: Timespec)
    requires Sorted(q, states, now) && p !in q && state.stamp == now && IsTime(now)
    ensures Sorted(q + [p], states[p := state], now)
  {
  }

  lemma {:induction false} ChunksSorted(q: seq<Addr>, states: map<Addr, State>, added: seq<Addr>, cache: seq<Payload>,
                                        now: Timespec)
    requires Sorted(q, states, now) && IsTime(now) && |added| <= |cache| && Distinct(q + added)
    ensures Sorted(q + added, WithChunks(states, added, cache, now), now)
  {
    hide Sorted;
    if added == [] {
      assert q + added == q;
    } else {
      var n := |added| - 1;
      var front := q + added[..n];
      assert q + added == front + [added[n]];
      assert forall i, j {:trigger front[i], front[j]} :: 0 <= i < j < |front| ==>
        front[i] == (q + added)[i] && front[j] == (q + added)[j];
      assert forall i :: 0 <= i < |front| ==> front[i] == (q + added)[i] != (q + added)[|front|];
      ChunksSorted(q, states, added[..n], cache, now);
      var state := State(RESENDS, false, now, cache[n]);
      AppendSorted(front, WithChunks(states, added[..n], cache, now), added[n], state, now);
    }
  }

  lemma CutSorted(s: Snapshot, t: Snapshot, now: Timespec)
    requires Sorted(s.queue, s.states, now) && t.queue == Kept(s.queue, t.states.Keys)
    requires Framed(s.states, s.bodies, t.states, t.bodies)
    ensures Sorted(t.queue, t.states, now)
  {
    KeptSorted(s.queue, s.states, now, t.states.Keys, t.states);
  }

  lemma PushSorted(s: Snapshot, t: Snapshot, payload: Payload, now: Timespec)
    requires s.Sound() && Sorted(s.queue, s.states, now) && IsTime(now) && Pushes(s, t, payload, now)
    ensures Sorted(t.queue, t.states, now)
  {
    hide Snapshot.Sound, Reached, PushDatagrams, Pushed, OnlyNexts, Sorted;
    SoundQueue(s);
    AppendSorted(s.queue, s.states, t.queue[|t.queue| - 1], State(RESENDS, false, now, payload), now);
  }

  lemma {:induction false} PushesSorted(path: seq<Snapshot>, updates: seq<Update>, now: Timespec)
    requires PushPath(path, updates, now) && Sorted(path[0].queue, path[0].states, now) && IsTime(now)
    ensures Sorted(path[|updates|].queue, path[|updates|].states, now)
    decreases |updates|
  {
    hide Snapshot.Sound, Pushes, Sorted;
    if updates != [] {
      var n := |updates| - 1;
      PushesSorted(path[..n + 1], updates[..n], now);
      PushSorted(path[n], path[n + 1], updates[n].payload, now);
    }
  }

  lemma AcceptedSorted(s: Snapshot, t: Snapshot, clientId: nat, peer: Peer, now: Timespec)
    requires s.Sound() && Sorted(s.queue, s.states, now) && IsTime(now) && Accepted(s, t, clientId, peer, now)
    ensures Sorted(t.queue, t.states, now)
  {
    hide Snapshot.Sound, Sorted, OthersKept;
    SoundQueue(s);
    var p := t.queue[|t.queue| - 1];
    AppendSorted(s.queue, s.states, p, State(RESENDS, false, now, Accept(t.sessionIdLast)), now);
  }

  lemma HandshakeSorted(s: Snapshot, t: Snapshot, clientId: nat, now: Timespec)
    requires t.Sound() && Sorted(s.queue, s.states, now) && IsTime(now) && HandshakeDone(s, t, clientId, now)
    ensures Sorted(t.queue, t.states, now)
  {
    hide Snapshot.Sound, Sorted, HandshakeDone;
    SoundDistinct(t);
    var p, added := HandshakeQueue(s, t, clientId, now);
    var states := s.states - {p};
    assert states.Keys == s.states.Keys - {p};
    KeptSorted(s.queue, s.states, now, states.Keys, states);
    ChunksSorted(Kept(s.queue, states.Keys), states, added, s.cache, now);
  }

  lemma HandshakeQueue(s: Snapshot, t: Snapshot, clientId: nat, now: Timespec) returns (p: Addr, added: seq<Addr>)
    requires HandshakeDone(s, t, clientId, now)
    ensures s.Known(clientId) && p == s.SessionOf(clientId).head.packet
    ensures |added| <= |s.cache| && t.queue == Kept(s.queue, s.states.Keys - {p}) + added
    ensures t.states == WithChunks(s.states - {p}, added, s.cache, now)
  {
    hide OthersKept, ChunkDatagrams, Dumped, WithChunks, Kept;
    var x := s.sessions[s.lookup[clientId] - 1];
    p, added := x.head.packet, Addresses(t.chains[x.id]);
  }

  /** What a packet within a session does. */
  lemma SessionSorted(s: Snapshot, t: Snapshot, i: nat, p: Packet, now: Timespec)
    requires s.Sound() && Sorted(s.queue, s.states, now) && IsTime(now) && SessionReceived(s, t, i, p, now)
    ensures Sorted(t.queue, t.states, now)
  {
    hide Snapshot.Sound, Sorted, Acked, Closing, Closed, Answered;
    var u :| InSession(s, u, t, i, p, now);
    if p.ack { AckedSorted(s, u, i, p.ackId, now); }
    if p.syn && p.opcode == ClosingOp {
      LeftSorted(u, t, i, now);
    } else if p.syn && p.opcode == ClosedOp {
      LeftSorted(u, t, i, now);
    } else if p.ackreq {
      AnsweredSorted(u, t, i, p.remoteId, p.updates, now);
    }
  }

  lemma AckedSorted(s: Snapshot, t: Snapshot, i: nat, ackId: nat, now: Timespec)
    requires Sorted(s.queue, s.states, now) && Acked(s, t, i, ackId)
    ensures Sorted(t.queue, t.states, now)
  {
    hide Sorted, Framed, AckedChains, AckedBodies, Kept;
    CutSorted(s, t, now);
  }

  lemma LeftSorted(s: Snapshot, t: Snapshot, i: nat, now: Timespec)
    requires Sorted(s.queue, s.states, now) && (Closing(s, t, i) || Closed(s, t, i))
    ensures Sorted(t.queue, t.states, now)
  {
    hide Sorted, Framed, Kept, WithoutDebts;
    if t != s { CutSorted(s, t, now); }
  }

  lemma AnsweredSorted(s: Snapshot, t: Snapshot, i: nat, remoteId: Word, updates: seq<Update>, now: Timespec)
    requires Sorted(s.queue, s.states, now) && IsTime(now) && Answered(s, t, i, remoteId, updates, now)
    ensures Sorted(t.queue, t.states, now)
  {
    hide Snapshot.Sound, Sorted, PushPath, IsNext;
    if IsNext(s, i, remoteId) {
      var path :| Taken(path, s, t, i, remoteId, updates, now);
      PushesSorted(path, updates, now);
    }
  }

  lemma OpeningSorted(s: Snapshot, t: Snapshot, p: Packet, peer: Peer, now: Timespec)
    requires s.Sound() && t.Sound() && Sorted(s.queue, s.states, now) && IsTime(now)
    requires OpeningReceived(s, t, p, peer, now)
    ensures Sorted(t.queue, t.states, now)
  {
    hide Snapshot.Sound, Sorted, OpenRequested, HandshakeDone, Snapshot.Opens;
    if IsOpenRequest(p) {
      RequestSorted(s, t, p.sessionId, peer, now);
    } else if !p.syn && p.ack && s.Opens(p.sessionId, peer) {
      HandshakeSorted(s, t, p.sessionId, now);
    }
  }

  lemma RequestSorted(s: Snapshot, t: Snapshot, clientId: nat, peer: Peer, now: Timespec)
    requires s.Sound() && Sorted(s.queue, s.states, now) && IsTime(now) && OpenRequested(s, t, clientId, peer, now)
    ensures Sorted(t.queue, t.states, now)
  {
    hide Snapshot.Sound, Sorted, Accepted;
    if s.Unused(clientId) && s.HasRoom() { AcceptedSorted(s, t, clientId, peer, now); }
  }

  /** The last time that an event reads from the clock, which said `before` until then. */
  function ClockAfter(e: Event, before: Timespec): Timespec {
    match e
    case Received(_, _, now) => now
    case TimerRan(_, later) => later
    case Shutdown(now) => now
    case Restart => before
  }

  /** No other event disturbs the order, as long as the clock is not set back. */
  lemma OtherEventsKeepOrder(e: Event, s: Snapshot, t: Snapshot, before: Timespec)
    requires s.Sound() && t.Sound() && Effect(e, s, t) && !e.TimerRan? && Sorted(s.queue, s.states, before)
    requires IsTime(before) && IsTime(ClockAfter(e, before)) && Before(before, ClockAfter(e, before))
    ensures Sorted(t.queue, t.states, ClockAfter(e, before))
  {
    hide Snapshot.Sound, Sorted, OpeningReceived, SessionReceived;
    var now := ClockAfter(e, before);
    SortedLater(s.queue, s.states, before, now);
    match e
    case Received(p, peer, _) =>
      if IsOpening(p) {
        OpeningSorted(s, t, p, peer, now);
      } else if FromSession(s, p, peer) {
        SessionSorted(s, t, s.lookup[p.sessionId] - 1, p, now);
      }
    case Shutdown(_) => ShutdownSorted(s, t, now);
    case Restart =>
  }

  lemma ShutdownSorted(s: Snapshot, t: Snapshot, now: Timespec)
    requires Sorted(s.queue, s.states, now) && IsTime(now) && Effect(Shutdown(now), s, t)
    ensures Sorted(t.queue, t.states, now)
  {
  }

  // ---------------------------------------------------------------- runs

  /** The timer was overtaken by the clock: a ping is queued with a later stamp than what comes behind it. */
  ghost predicate Disturbs(e: Event, s: Snapshot) {
    e.TimerRan? && Overtaken(s, e.now) && e.later != e.now
  }

  /** The clock is read at the events and never set back; it said `times[k]` before event `k`. */
  predicate InTime(events: seq<Event>, times: seq<Timespec>) {
    && |times| == |events| + 1 && IsTime(times[0])
    && forall k :: 0 <= k < |events| ==> Timely(events[k], times[k], times[k + 1])
  }

  predicate Timely(e: Event, before: Timespec, after: Timespec) {
    && after == ClockAfter(e, before) && IsTime(after) && Before(before, after)
    && (e.TimerRan? ==> IsTime(e.now) && Before(before, e.now) && Before(e.now, after) && Recent(e.now, after))
  }

  lemma EventKeepsOrder(e: Event, s: Snapshot, t: Snapshot, before: Timespec, after: Timespec)
    requires s.Sound() && t.Sound() && Effect(e, s, t) && Sorted(s.queue, s.states, before)
    requires IsTime(before) && Timely(e, before, after)
    ensures Sorted(t.queue, t.states, after) <==> !Disturbs(e, s)
  {
    hide Snapshot.Sound, Sorted, Effect, Overtaken, Recent;
    if e.TimerRan? {
      SortedLater(s.queue, s.states, before, e.now);
      TimerKeepsOrderExactlyWhen(s, t, e.now, e.later, e.later);
    } else {
      OtherEventsKeepOrder(e, s, t, before);
    }
  }

  /** Over a whole run the queue is in the order of its stamps, unless a run of the timer disturbs it. */
  lemma {:induction false} RunKeepsOrderExactlyWhen(events: seq<Event>, handled: nat, trace: seq<Snapshot>,
                                                    times: seq<Timespec>)
    requires Traced(events, handled, trace) && InTime(events, times)
    requires Sorted(trace[0].queue, trace[0].states, times[0])
    ensures (forall k :: 0 <= k <= handled ==> Sorted(trace[k].queue, trace[k].states, times[k]))
            <==> forall k :: 0 <= k < handled ==> !Disturbs(events[k], trace[k])
  {
    hide Snapshot.Sound, Sorted, Effect, Trips, Disturbs, Timely;
    if handled > 0 {
      var k := handled - 1;
      RunKeepsOrderExactlyWhen(events, k, trace[..handled], times);
      assert forall i :: 0 <= i < handled ==> trace[..handled][i] == trace[i];
      IsTimeAt(events, times, k);
      if Sorted(trace[k].queue, trace[k].states, times[k]) {
        EventKeepsOrder(events[k], trace[k], trace[handled], times[k], times[handled]);
      }
    }
  }

  lemma IsTimeAt(events: seq<Event>, times: seq<Timespec>, k: nat)
    requires InTime(events, times) && k < |events|
    ensures IsTime(times[k]) && Timely(events[k], times[k], times[k + 1])
  {
    if k > 0 { assert Timely(events[k - 1], times[k - 1], times[k]); }
  }

  // ---------------------------------------------------------------- the check

  lemma ElapsedSum(at: Timespec, now: Timespec, stamp: Timespec)
    requires IsTime(at) && IsTime(now) && IsTime(stamp)
    ensures Elapsed(at, stamp) <= Elapsed(at, now) + Elapsed(now, stamp) + 1
  {
  }

  /** Nothing in the queue was stamped in the future, and the first packet has not been due for a second. */
  ghost predicate UpToDate(q: seq<Addr>, states: map<Addr, State>, delay: nat, at: Timespec) {
    && (forall i :: 0 <= i < |q| ==> q[i] in states && IsTime(states[q[i]].stamp) && Before(states[q[i]].stamp, at))
    && (q != [] ==> TimeLeft(states[q[0]], delay, at) >= -1000)
  }

  lemma StampsOkInOrder(q: seq<Addr>, states: map<Addr, State>, delay: nat, at: Timespec)
    requires UpToDate(q, states, delay, at) && IsTime(at)
    ensures StampsOk(q, states, delay, at) <==> InOrder(q, states, at)
  {
    hide Elapsed;
    forall i | 0 <= i < |q|
      ensures Elapsed(at, states[q[i]].stamp) >= 0
    {
      ElapsedLess(at, states[q[i]].stamp, at);
      NoTime(at);
    }
    if StampsOk(q, states, delay, at) {
      forall i | 0 < i < |q|
        ensures Elapsed(at, states[q[i]].stamp) <= Elapsed(at, states[q[i - 1]].stamp)
      {
        assert StampOk(q, i, states, delay, at);
      }
    }
  }

  lemma NoTime(at: Timespec)
    ensures Elapsed(at, at) == 0
  {
  }

  lemma OutcomeUpToDate(s: Snapshot, t: Snapshot, m: nat, g: Addr, now: Timespec, later: Timespec, at: Timespec)
    requires Outcome(s, t, m, g, now, later) && IsTime(now) && IsTime(later) && IsTime(at) && 0 < t.delay < ID_COUNT
    requires Before(now, later) && Before(later, at) && Elapsed(at, now) < 1000
    ensures UpToDate(t.queue, t.states, t.delay, at)
  {
    hide Elapsed, Remaining;
    assert forall i :: 0 <= i < m ==> t.queue[i] == t.queue[..m][i];
    if t.queue != [] {
      var a := t.states[t.queue[0]];
      ElapsedSum(at, now, a.stamp);
      if Before(a.stamp, now) {
        DueWhen(a, t.delay, now);
      } else {
        ElapsedLess(now, now, a.stamp);
        NoTime(now);
      }
    }
  }

  /** The check of the queue, made within a second after the timer ran on a sorted queue, fails for no other reason
      than a ping that was overtaken. */
  lemma CheckAfterTimer(s: Snapshot, t: Snapshot, now: Timespec, later: Timespec, at: Timespec)
    requires s.Sound() && t.Sound() && Effect(TimerRan(now, later), s, t) && Sorted(s.queue, s.states, now)
    requires IsTime(now) && IsTime(later) && Before(now, later) && Recent(now, later)
    requires IsTime(at) && Before(later, at) && Elapsed(at, now) < 1000
    ensures StampsOk(t.queue, t.states, t.delay, at)
            <==> !(Overtaken(s, now) && Elapsed(at, later) < Elapsed(at, now))
  {
    hide Snapshot.Sound, Firing, Pinged, FiringPath, HeadDue, Sorted, Outcome, Overtaken, Elapsed, Recent, InOrder;
    hide UpToDate, StampsOk;
    TimerKeepsOrderExactlyWhen(s, t, now, later, at);
    var path :| TimerPath(path, s, t, now, later);
    SoundDelay(s);
    SoundDelay(t);
    StillLeft(now, later, s.delay);
    var m, g := WhatTheTimerDoes(s, t, now, later, path);
    OutcomeUpToDate(s, t, m, g, now, later, at);
    StampsOkInOrder(t.queue, t.states, t.delay, at);
  }
}
