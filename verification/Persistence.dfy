/** How long the proxy keeps trying to reach a session that does not answer: exactly how often a packet is sent again,
    and what comes then. */
module Persistence {
  import opened IndexSet
  import opened ProxyState
  import opened ChainLemmas
  import opened JoinLemmas
  import opened SessionLemmas
  import opened TableLemmas
  import opened History
  import opened Draining
  import opened ProxyServer
  import opened Effects
  import opened SoundStates
  import opened Timeout
  import opened Failures
  import opened Runs
  import opened StampOrder
  import opened OrderedRuns
  import opened SilentSessions
  import opened Answers

  // ---------------------------------------------------------------- one firing

  /** The oldest packet of the session has been fired: it was sent again; or, if it had been sent often enough, it has
      become a closing request with one resend; or, if it was one, the session is gone. */
  ghost predicate Stepped(s: Snapshot, t: Snapshot, o: nat, now: Timespec) {
    Owing(s, o)
    && var x := OldestState(s, o);
       if x.resends == 0 && x.closing then o !in t.chains
       else
         SameOldest(s, t, o)
         && OldestState(t, o) == if x.resends > 0 then x.(resends := x.resends - 1, stamp := now)
                                 else State(1, true, now, CloseRequest)
  }

  /** Whoever owes a closing request owes nothing else. */
  lemma ClosingIsOldest(s: Snapshot, p: Addr, o: nat)
    requires s.Sound() && p in s.states && s.states[p].closing && p in s.bodies && IndexOk(s.bodies[p])
    requires o in OwnersBelow(s.bodies[p], s.bodies[p].remaining)
    ensures Owing(s, o) && Oldest(s, o) == p
  {
    hide Snapshot.Sound, OwnersBelow, IndexOk;
    var x := OwnerLink(s, p, o);
    var j := ClosingLink(s, o, x);
    OnlyLink(s, j);
    LinkIn(s, o);
  }

  lemma OnlyLink(s: Snapshot, j: nat)
    requires s.Sound() && s.connected <= j < |s.sessions|
    ensures s.sessions[j].id in s.chains && |s.chains[s.sessions[j].id]| == 1
  {
    hide QueueOk, TableOk, PacketsOk, ChainKeysOk, Recorded, Linked, Consecutive;
    assert SessionOk(s.states, s.bodies, s.chains, {}, s.sessions[j], false);
  }

  /** A session is one of the owners of its oldest packet. */
  lemma OldestIsOwned(s: Snapshot, o: nat)
    requires s.Sound() && Owing(s, o)
    ensures var p := Oldest(s, o);
      && p in s.bodies && IndexOk(s.bodies[p]) && s.chains[o][0].slot < |s.bodies[p].slots|
      && Owes(s.bodies[p], s.chains[o][0].slot) && s.bodies[p].slots[s.chains[o][0].slot].owner == o
      && o in OwnersBelow(s.bodies[p], s.bodies[p].remaining)
  {
    hide QueueOk, TableOk, SessionsOk, ChainKeysOk, Recorded, OrderOk, BirthsOk, ChainsOk;
    LinkOwed(s.bodies, s.chains, o, 0);
    EnumeratesOwed(s.bodies[Oldest(s, o)], s.chains[o][0].slot);
  }

  lemma OtherFired(s: Snapshot, t: Snapshot, now: Timespec, o: nat)
    requires s.Sound() && t.Sound() && Firing(s, t, now) && Owing(s, o) && s.queue[0] != Oldest(s, o)
    ensures LeftAlone(s, t, o)
  {
    hide Snapshot.Sound, Descends;
    var p := s.queue[0];
    if s.states[p].resends == 0 && s.states[p].closing && o in OwnersBelow(s.bodies[p], s.bodies[p].remaining) {
      ClosingIsOldest(s, p, o);
      assert false;
    }
    assert o in t.chains && t.chains[o] == s.chains[o];
    LinkIn(t, o);
  }

  lemma OldestFired(s: Snapshot, t: Snapshot, now: Timespec, o: nat)
    requires s.Sound() && t.Sound() && Firing(s, t, now) && Owing(s, o) && s.queue[0] == Oldest(s, o)
    ensures Stepped(s, t, o, now)
  {
    hide Snapshot.Sound, Descends, Dealt, OwnersBelow, IndexOk;
    OldestIsOwned(s, o);
    if o in t.chains { LinkIn(t, o); }
  }

  // ---------------------------------------------------------------- what is sent

  /** Among what has been sent in between there is a packet with this payload under this id. */
  ghost predicate Reaches(sent0: seq<Datagram>, sent1: seq<Datagram>, id: nat, payload: Payload) {
    exists m :: |sent0| <= m < |sent1| && Brings(sent1[m], id, payload)
  }

  predicate Brings(d: Datagram, id: nat, payload: Payload) {
    d.Data? && d.sessionId == id && d.payload == payload
  }

  lemma {:induction false} TransmissionTo(sessions: seq<Session>, lookup: seq<int>, b: Body, state: State, n: nat,
                                          j: nat)
    requires j < n <= |b.slots| && Addressable(sessions, lookup, b, IndexAt(b, j))
    ensures var id := sessions[lookup[b.slots[IndexAt(b, j)].owner] - 1].wireId;
      exists m :: 0 <= m < |Transmissions(sessions, lookup, b, state, n)|
                  && Brings(Transmissions(sessions, lookup, b, state, n)[m], id, state.payload)
  {
    var all := Transmissions(sessions, lookup, b, state, n);
    var id := sessions[lookup[b.slots[IndexAt(b, j)].owner] - 1].wireId;
    if j == n - 1 {
      assert Brings(all[|all| - 1], id, state.payload);
    } else {
      TransmissionTo(sessions, lookup, b, state, n - 1, j);
      var m :| 0 <= m < |Transmissions(sessions, lookup, b, state, n - 1)|
               && Brings(Transmissions(sessions, lookup, b, state, n - 1)[m], id, state.payload);
      assert Brings(all[m], id, state.payload);
    }
  }

  lemma {:induction false} ClosingTo(sessions0: seq<Session>, b: Body, n: nat, sent0: seq<Datagram>,
                                     sent1: seq<Datagram>, j: nat)
    requires ClosingsSent(sessions0, b, n, sent0, sent1) && IndexOk(b) && j < n <= b.remaining
    ensures Reaches(sent0, sent1, b.slots[IndexAt(b, j)].owner, CloseRequest)
    decreases n
  {
    var o, front := b.slots[IndexAt(b, j)].owner, sent1[..|sent1| - 1];
    ClosingsTo(sessions0, b, n - 1, sent0, front);
    if j == n - 1 {
      assert Brings(sent1[|sent1| - 1], o, CloseRequest);
    } else {
      ClosingTo(sessions0, b, n - 1, sent0, front, j);
      var m :| |sent0| <= m < |front| && Brings(front[m], o, CloseRequest);
      assert Brings(sent1[m], o, CloseRequest);
    }
  }

  /** The session has left its opening handshake. */
  predicate Named(s: Snapshot, o: nat) {
    s.Known(o) && s.SessionOf(o).wireId == o
  }

  /** A firing for the oldest packet sends it to the session, or the closing request that it has become. */
  lemma OldestSent(s: Snapshot, t: Snapshot, now: Timespec, o: nat)
    requires s.Sound() && t.Sound() && Firing(s, t, now) && Owing(s, o) && s.queue[0] == Oldest(s, o) && Named(s, o)
    ensures OldestState(s, o).resends > 0 ==> Reaches(s.sent, t.sent, o, OldestState(s, o).payload)
    ensures OldestState(s, o).resends == 0 && !OldestState(s, o).closing ==> Reaches(s.sent, t.sent, o, CloseRequest)
  {
    hide Snapshot.Sound, Descends, Dealt, Fired, Transmissions, ClosingsSent;
    OldestIsOwned(s, o);
    var i := RecordAt(s, o);
    var p := Oldest(s, o);
    var b, state := s.bodies[p], s.states[p];
    EnumeratesOwed(b, s.chains[o][0].slot);
    var j: nat :| j < b.remaining && IndexAt(b, j) == s.chains[o][0].slot;
    if state.resends > 0 {
      IdOf(s, i);
      TransmissionTo(s.sessions, s.lookup, b, state, b.remaining, j);
      SentBehind(s.sent, Transmissions(s.sessions, s.lookup, b, state, b.remaining), t.sent, o, state.payload);
    } else if !state.closing {
      ClosingTo(s.sessions, b, b.remaining, s.sent, t.sent, j);
    }
  }

  lemma SentBehind(sent0: seq<Datagram>, more: seq<Datagram>, sent1: seq<Datagram>, id: nat, payload: Payload)
    requires sent1 == sent0 + more && exists m :: 0 <= m < |more| && Brings(more[m], id, payload)
    ensures Reaches(sent0, sent1, id, payload)
  {
    var m :| 0 <= m < |more| && Brings(more[m], id, payload);
    assert sent1[|sent0| + m] == more[m];
  }

  lemma ReachesLater(a: seq<Datagram>, b: seq<Datagram>, c: seq<Datagram>, d: seq<Datagram>, id: nat, payload: Payload)
    requires |a| <= |b| && Reaches(b, c, id, payload) && c <= d
    ensures Reaches(a, d, id, payload)
  {
    var m :| |b| <= m < |c| && Brings(c[m], id, payload);
    assert d[m] == c[m];
  }

  // ---------------------------------------------------------------- who owes what

  /** What the session owes first is no accept response. */
  predicate Established(s: Snapshot, o: nat) {
    Owing(s, o) && (OldestState(s, o).closing || !OldestState(s, o).payload.Accept?)
  }

  /** Then it has left its opening handshake, and is connected unless it is asked to close. */
  lemma EstablishedIsNamed(s: Snapshot, o: nat)
    requires s.Sound() && Established(s, o)
    ensures Named(s, o) && (!OldestState(s, o).closing ==> IsConnected(s.sessions, s.connected, o))
  {
    hide Snapshot.Sound;
    var i := RecordAt(s, o);
    RecordTells(s, i);
  }

  lemma RecordTells(s: Snapshot, i: nat)
    requires s.Sound() && i < |s.sessions| && Established(s, s.sessions[i].id)
    ensures s.sessions[i].wireId == s.sessions[i].id
    ensures OldestState(s, s.sessions[i].id).closing || i < s.connected
  {
    hide QueueOk, PacketsOk, ChainKeysOk, SentLogged, Strung, Consecutive;
    var o := s.sessions[i].id;
    assert SessionOk(s.states, s.bodies, s.chains, {}, s.sessions[i], i < s.connected);
    assert Carries(o, |s.chains[o]|, 0, s.states[s.chains[o][0].packet], s.history);
    RecordIds(s.sessions, s.connected, s.lookup, i);
  }

  // ---------------------------------------------------------------- a run of the timer

  lemma NotDueNow(x: State, delay: nat, now: Timespec)
    requires x.stamp == now && 0 < delay < ID_COUNT
    ensures !Due(x, delay, now)
  {
  }

  lemma LeftAloneTwice(s: Snapshot, t: Snapshot, u: Snapshot, o: nat)
    requires LeftAlone(s, t, o) && LeftAlone(t, u, o)
    ensures LeftAlone(s, u, o)
  {
  }

  /** A packet that is not due is left alone. */
  lemma {:induction false} PathQuiet(path: seq<Snapshot>, now: Timespec, o: nat)
    requires FiringPath(path, now) && Owing(path[0], o) && !Due(OldestState(path[0], o), path[0].delay, now)
    ensures LeftAlone(path[0], path[|path| - 1], o)
    decreases |path|
  {
    hide Snapshot.Sound, Firing, Due;
    if |path| > 1 {
      PathRest(path, now);
      HeadIsDue(path[0], now);
      FiringKeys(path[0], path[1], now);
      OtherFired(path[0], path[1], now, o);
      PathQuiet(path[1..], now, o);
      LeftAloneTwice(path[0], path[1], path[|path| - 1], o);
    }
  }

  lemma HeadIsDue(s: Snapshot, now: Timespec)
    requires HeadDue(s, now)
    ensures s.queue != [] && s.queue[0] in s.states && Due(s.states[s.queue[0]], s.delay, now)
  {
  }

  /** What has been sent, if the oldest packet has been fired. */
  ghost predicate Tried(s: Snapshot, sent1: seq<Datagram>, o: nat) {
    Owing(s, o)
    && var x := OldestState(s, o);
       if x.resends > 0 then Reaches(s.sent, sent1, o, x.payload)
       else !x.closing ==> Reaches(s.sent, sent1, o, CloseRequest)
  }

  lemma TriedLater(s: Snapshot, sent1: seq<Datagram>, sent2: seq<Datagram>, o: nat)
    requires Tried(s, sent1, o) && sent1 <= sent2
    ensures Tried(s, sent2, o)
  {
    hide Reaches;
    var x := OldestState(s, o);
    if x.resends > 0 {
      ReachesLater(s.sent, s.sent, sent1, sent2, o, x.payload);
    } else if !x.closing {
      ReachesLater(s.sent, s.sent, sent1, sent2, o, CloseRequest);
    }
  }

  /** One that is due is fired once at most. */
  lemma {:induction false} PathStep(path: seq<Snapshot>, now: Timespec, o: nat)
    requires FiringPath(path, now) && Established(path[0], o)
    ensures var s, t := path[0], path[|path| - 1]; LeftAlone(s, t, o) || (Stepped(s, t, o, now) && Tried(s, t.sent, o))
    decreases |path|
  {
    hide Snapshot.Sound, Firing, Due, Tried;
    if |path| > 1 {
      var s, u, t := path[0], path[1], path[|path| - 1];
      PathRest(path, now);
      HeadIsDue(s, now);
      FiringKeys(s, u, now);
      if s.queue[0] == Oldest(s, o) {
        FirstStep(path, now, o);
      } else {
        OtherFired(s, u, now, o);
        PathStep(path[1..], now, o);
        FiringAnswersNothing(s, u, now);
        ThenStepped(s, u, t, o, now);
      }
    }
  }

  /** The oldest packet is the first one that is fired. */
  lemma FirstStep(path: seq<Snapshot>, now: Timespec, o: nat)
    requires FiringPath(path, now) && |path| > 1 && Established(path[0], o) && path[0].queue != []
    requires path[0].queue[0] == Oldest(path[0], o) && Firing(path[0], path[1], now)
    ensures var s, t := path[0], path[|path| - 1]; Stepped(s, t, o, now) && Tried(s, t.sent, o)
  {
    hide Snapshot.Sound, Firing, Due, HeadDue;
    var s, u, t := path[0], path[1], path[|path| - 1];
    PathRest(path, now);
    FiringKeys(s, u, now);
    OldestFired(s, u, now, o);
    EstablishedIsNamed(s, o);
    OldestSent(s, u, now, o);
    PathAnswersNothing(path[1..], now);
    TriedLater(s, u.sent, t.sent, o);
    if o in u.chains {
      SoundDelay(u);
      NotDueNow(OldestState(u, o), u.delay, now);
      PathQuiet(path[1..], now, o);
    } else if o in t.chains {
      StillOnPath(path[1..], now, o);
    }
  }

  lemma ThenStepped(s: Snapshot, u: Snapshot, t: Snapshot, o: nat, now: Timespec)
    requires LeftAlone(s, u, o) && |s.sent| <= |u.sent|
    requires LeftAlone(u, t, o) || (Stepped(u, t, o, now) && Tried(u, t.sent, o))
    ensures LeftAlone(s, t, o) || (Stepped(s, t, o, now) && Tried(s, t.sent, o))
  {
    hide Reaches;
    if !LeftAlone(u, t, o) {
      var x := OldestState(u, o);
      if x.resends > 0 {
        ReachesLater(s.sent, u.sent, t.sent, t.sent, o, x.payload);
      } else if !x.closing {
        ReachesLater(s.sent, u.sent, t.sent, t.sent, o, CloseRequest);
      }
    }
  }

  /** A run of the timer on an ordered queue: a session's oldest packet is fired if and only if it is due. */
  lemma TimerSteps(s: Snapshot, t: Snapshot, now: Timespec, later: Timespec, o: nat)
    requires s.Sound() && t.Sound() && Effect(TimerRan(now, later), s, t) && Established(s, o)
    requires InOrderAt(s, now, later)
    ensures if Due(OldestState(s, o), s.delay, now) then Stepped(s, t, o, now) && Tried(s, t.sent, o)
            else LeftAlone(s, t, o)
  {
    hide Snapshot.Sound, Pushes, Firing, HeadDue, Due, Recent, Outcome, Tried, Sorted;
    var path: seq<Snapshot> :| TimerPath(path, s, t, now, later);
    var u := path[0];
    PingedSame(s, u, now, later, o);
    PingedSent(s, u, now, later);
    PathStep(path, now, o);
    ThenStepped(s, u, t, o, now);
    if Due(OldestState(s, o), s.delay, now) {
      SoundDelay(s);
      StillLeft(now, later, s.delay);
      var m, g := WhatTheTimerDoes(s, t, now, later, path);
      PathDelay(path, now);
      if LeftAlone(s, t, o) {
        LinkIn(t, o);
        NotDueAfter(s, t, m, g, now, later, Oldest(t, o));
        assert false;
      }
    } else {
      PathQuiet(path, now, o);
      LeftAloneTwice(s, u, t, o);
    }
  }

  lemma PingedSent(s: Snapshot, u: Snapshot, now: Timespec, later: Timespec)
    requires Pinged(s, u, now, later)
    ensures |s.sent| <= |u.sent|
  {
    hide Pushes;
    if PingDue(s, now) { PushAnswersNothing(s, u.(pingStamp := s.pingStamp), Ping, later); }
  }

  lemma {:induction false} PathDelay(path: seq<Snapshot>, now: Timespec)
    requires FiringPath(path, now)
    ensures path[|path| - 1].delay == path[0].delay
    decreases |path|
  {
    hide Snapshot.Sound, Firing, HeadDue;
    if |path| > 1 {
      PathRest(path, now);
      FiringKeys(path[0], path[1], now);
      PathDelay(path[1..], now);
    }
  }

  // ---------------------------------------------------------------- runs

  /** An event that is none of the session's own: its oldest packet is fired if the event is a run of the timer that
      finds it due, and left alone otherwise. */
  lemma EventSteps(e: Event, s: Snapshot, t: Snapshot, before: Timespec, after: Timespec, o: nat)
    requires s.Sound() && t.Sound() && Effect(e, s, t) && Ignores(e, s, o) && Established(s, o)
    requires Sorted(s.queue, s.states, before) && IsTime(before) && Timely(e, before, after)
    ensures if FindsDue(e, s, o) then Stepped(s, t, o, e.now) && Tried(s, t.sent, o) else LeftAlone(s, t, o)
  {
    hide Snapshot.Sound, Sorted, OpeningReceived, SessionReceived, Recent, Due, TimerPath, Stepped, Tried;
    match e {
      case TimerRan(now, later) =>
        SortedLater(s.queue, s.states, before, now);
        TimerSteps(s, t, now, later, o);
      case Restart =>
      case Received(p, peer, now) =>
        if IsOpening(p) {
          OpeningSame(s, t, p, peer, now, o);
        } else if FromSession(s, p, peer) {
          SilentSessions.SessionSame(s, t, s.lookup[p.sessionId] - 1, p, now, o);
        }
    }
  }

  /** Where packet `p` is in its session after it has been found due `c` times: sent again ten times; then turned into a
      closing request, which is sent again once; then gone with the session. */
  ghost predicate AtStage(s: Snapshot, o: nat, p: Addr, payload: Payload, c: nat) {
    if c <= 12 then
      && Established(s, o) && Oldest(s, o) == p
      && var x := OldestState(s, o);
         if c <= 10 then x.resends == 10 - c && !x.closing && x.payload == payload
         else x.resends == 12 - c && x.closing && x.payload == CloseRequest
    else o !in s.chains
  }

  /** The payload that is sent when it is found due once more. */
  function NextPayload(payload: Payload, c: nat): Payload {
    if c < 10 then payload else CloseRequest
  }

  lemma NextStage(s: Snapshot, t: Snapshot, o: nat, p: Addr, payload: Payload, c: nat, now: Timespec)
    requires AtStage(s, o, p, payload, c) && c <= 12 && !payload.Accept? && Stepped(s, t, o, now) && Tried(s, t.sent, o)
    ensures AtStage(t, o, p, payload, c + 1)
    ensures c < 12 ==> Reaches(s.sent, t.sent, o, NextPayload(payload, c))
  {
    hide Reaches;
  }

  lemma SameStage(s: Snapshot, t: Snapshot, o: nat, p: Addr, payload: Payload, c: nat)
    requires AtStage(s, o, p, payload, c) && c <= 12 && LeftAlone(s, t, o)
    ensures AtStage(t, o, p, payload, c)
  {
  }

  /** A packet that is pushed to a connected session which owes nothing starts there. */
  lemma PushStarts(s: Snapshot, t: Snapshot, payload: Payload, stamp: Timespec, o: nat)
    requires s.Sound() && Pushes(s, t, payload, stamp) && !payload.Accept?
    requires IsConnected(s.sessions, s.connected, o) && o in s.chains && s.chains[o] == []
    ensures t.queue != [] && AtStage(t, o, t.queue[|t.queue| - 1], payload, 0)
  {
    hide Snapshot.Sound, Reached, Pushed, PushDatagrams, OnlyNexts;
    var i :| 0 <= i < s.connected && i < |s.sessions| && s.sessions[i].id == o;
    var p := t.queue[|t.queue| - 1];
    ReachedKeys(s.connected, p, s.sessions, s.chains, t.sessions, t.chains);
    ReachedChain(s.connected, p, s.sessions, s.chains, t.sessions, t.chains, i);
  }

  /** A connected session that owes a packet which has not been sent again yet, and is not heard of in a run in which
      the queue stays in order. */
  ghost predicate Abandoned(events: seq<Event>, handled: nat, trace: seq<Snapshot>, times: seq<Timespec>, o: nat,
                            p: Addr, payload: Payload)
  {
    && Traced(events, handled, trace) && InTime(events, times)
    && (forall k :: 0 <= k <= handled ==> Sorted(trace[k].queue, trace[k].states, times[k]))
    && (forall k :: 0 <= k < handled ==> Ignores(events[k], trace[k], o))
    && AtStage(trace[0], o, p, payload, 0) && !payload.Accept?
  }

  /** Whatever else happens: the stage of the packet is the number of runs of the timer that have found it due. */
  lemma {:induction false} StageIsCount(events: seq<Event>, handled: nat, trace: seq<Snapshot>, times: seq<Timespec>,
                                        o: nat, p: Addr, payload: Payload, n: nat)
    requires Abandoned(events, handled, trace, times, o, p, payload) && n <= handled
    ensures var c := Chances(events, trace, n, o);
      && (c <= 12 ==> AtStage(trace[n], o, p, payload, c))
      && (c == 13 && FindsDue(events[n - 1], trace[n - 1], o) ==> AtStage(trace[n], o, p, payload, 13))
  {
    hide Snapshot.Sound, Sorted, Effect, Trips, Ignores, Timely, FindsDue, AtStage, Stepped, Tried;
    if n > 0 {
      StageIsCount(events, handled, trace, times, o, p, payload, n - 1);
      if Chances(events, trace, n - 1, o) <= 12 {
        OneEvent(events, handled, trace, times, o, p, payload, n - 1);
      }
    }
  }

  lemma OneEvent(events: seq<Event>, handled: nat, trace: seq<Snapshot>, times: seq<Timespec>, o: nat, p: Addr,
                 payload: Payload, k: nat)
    requires Abandoned(events, handled, trace, times, o, p, payload) && k < handled
    requires Chances(events, trace, k, o) <= 12 && AtStage(trace[k], o, p, payload, Chances(events, trace, k, o))
    ensures var c := Chances(events, trace, k, o);
      if FindsDue(events[k], trace[k], o) then
        && AtStage(trace[k + 1], o, p, payload, c + 1)
        && (c < 12 ==> Reaches(trace[k].sent, trace[k + 1].sent, o, NextPayload(payload, c)))
      else AtStage(trace[k + 1], o, p, payload, c)
  {
    hide Snapshot.Sound, Sorted, Effect, Trips, Ignores, Timely, FindsDue, Stepped, Tried, Reaches, LeftAlone;
    hide NextPayload;
    var c := Chances(events, trace, k, o);
    IsTimeAt(events, times, k);
    assert Effect(events[k], trace[k], trace[k + 1]);
    EstablishedAt(trace[k], o, p, payload, c);
    hide AtStage;
    EventSteps(events[k], trace[k], trace[k + 1], times[k], times[k + 1], o);
    if FindsDue(events[k], trace[k], o) {
      FoundAt(events[k], trace[k], o);
      NextStage(trace[k], trace[k + 1], o, p, payload, c, events[k].now);
    } else {
      SameStage(trace[k], trace[k + 1], o, p, payload, c);
    }
  }

  lemma EstablishedAt(s: Snapshot, o: nat, p: Addr, payload: Payload, c: nat)
    requires AtStage(s, o, p, payload, c) && c <= 12
    ensures Established(s, o)
  {
  }

  lemma FoundAt(e: Event, s: Snapshot, o: nat)
    requires FindsDue(e, s, o)
    ensures e.TimerRan?
  {
  }

  /** The proxy tries ten times: until then the session stays connected and owes the packet, and each time it is
      sent the packet again. */
  lemma TriesTenTimes(events: seq<Event>, handled: nat, trace: seq<Snapshot>, times: seq<Timespec>, o: nat, p: Addr,
                      payload: Payload, n: nat)
    requires Abandoned(events, handled, trace, times, o, p, payload) && n <= handled
    requires Chances(events, trace, n, o) <= 10
    ensures IsConnected(trace[n].sessions, trace[n].connected, o) && Owing(trace[n], o) && Oldest(trace[n], o) == p
    ensures OldestState(trace[n], o).resends == 10 - Chances(events, trace, n, o)
    ensures n > 0 && FindsDue(events[n - 1], trace[n - 1], o) ==>
      Reaches(trace[n - 1].sent, trace[n].sent, o, payload)
  {
    hide Snapshot.Sound, Sorted, Effect, Trips, Ignores, Timely, FindsDue, Reaches, Abandoned;
    StageIsCount(events, handled, trace, times, o, p, payload, n);
    assert trace[n].Sound() by { SoundAt(events, handled, trace, times, o, p, payload, n); }
    EstablishedIsNamed(trace[n], o);
    if n > 0 {
      StageIsCount(events, handled, trace, times, o, p, payload, n - 1);
      OneEvent(events, handled, trace, times, o, p, payload, n - 1);
    }
  }

  lemma SoundAt(events: seq<Event>, handled: nat, trace: seq<Snapshot>, times: seq<Timespec>, o: nat, p: Addr,
                payload: Payload, n: nat)
    requires Abandoned(events, handled, trace, times, o, p, payload) && n <= handled
    ensures n < |trace| && n <= |events| && trace[n].Sound()
  {
    hide Snapshot.Sound, Sorted, Effect, Trips, Ignores, Timely;
  }
}
