/** What a client sends to the proxy: the proxy takes each of its packets once, in order, over whole runs. */
module Uplink {
  import opened Basics
  import opened IndexSet
  import opened ProxyState
  import opened ProxyServer
  import opened JoinLemmas
  import opened SessionLemmas
  import opened History
  import opened Sequence
  import opened Draining
  import opened Effects
  import opened SoundStates
  import opened Runs
  import opened FailingRuns

  /** The id of the packet that the proxy took last from session `o`. */
  function Last(s: Snapshot, o: nat): int {
    if s.Known(o) then s.SessionOf(o).remoteIdLast else 0
  }

  /** Every record goes back to one of the same session that was as far. */
  predicate AllFrom(a: seq<Session>, b: seq<Session>) {
    forall i :: 0 <= i < |b| ==> From(a, b[i])
  }

  predicate From(a: seq<Session>, s: Session) {
    exists j :: 0 <= j < |a| && a[j].id == s.id && a[j].remoteIdLast == s.remoteIdLast
  }

  lemma AllFromTwice(a: seq<Session>, b: seq<Session>, c: seq<Session>)
    requires AllFrom(a, b) && AllFrom(b, c)
    ensures AllFrom(a, c)
  {
    forall i | 0 <= i < |c|
      ensures From(a, c[i])
    {
      assert From(b, c[i]);
      var j :| 0 <= j < |b| && b[j].id == c[i].id && b[j].remoteIdLast == c[i].remoteIdLast;
      assert From(a, b[j]);
    }
  }

  lemma DescendsFrom(a: seq<Session>, ca: nat, b: seq<Session>, cb: nat)
    requires Descends(a, ca, b, cb)
    ensures AllFrom(a, b)
  {
    forall i | 0 <= i < |b|
      ensures From(a, b[i])
    {
      assert GoesBack(b[i], i < cb, a, ca);
    }
  }

  /** The records are at the same positions, even. */
  predicate SamePlaces(a: seq<Session>, b: seq<Session>) {
    |b| == |a| && forall i :: 0 <= i < |a| ==> b[i].id == a[i].id && b[i].remoteIdLast == a[i].remoteIdLast
  }

  lemma SameFrom(a: seq<Session>, b: seq<Session>)
    requires SamePlaces(a, b)
    ensures AllFrom(a, b)
  {
  }

  lemma LastKept(s: Snapshot, t: Snapshot, o: nat)
    requires s.Sound() && t.Sound() && o in s.chains && o in t.chains && AllFrom(s.sessions, t.sessions)
    ensures Last(t, o) == Last(s, o)
  {
    hide Snapshot.Sound;
    var i := RecordAt(s, o);
    var j := RecordAt(t, o);
    assert From(s.sessions, t.sessions[j]);
  }

  // ---------------------------------------------------------------- what leaves it alone

  lemma PushKeepsPlaces(s: Snapshot, t: Snapshot, payload: Payload, stamp: Timespec)
    requires Pushes(s, t, payload, stamp)
    ensures SamePlaces(s.sessions, t.sessions)
  {
    hide OnlyNexts, Pushed, PushDatagrams;
  }

  lemma {:induction false} PathFrom(path: seq<Snapshot>, now: Timespec)
    requires FiringPath(path, now)
    ensures AllFrom(path[0].sessions, path[|path| - 1].sessions)
  {
    hide Snapshot.Sound, Firing, HeadDue, AllFrom;
    if |path| == 1 {
      SameFrom(path[0].sessions, path[0].sessions);
    } else {
      var n := |path| - 1;
      PathFrom(path[..n], now);
      assert HeadDue(path[n - 1], now) && Firing(path[n - 1], path[n - 1 + 1], now);
      FiringFrom(path[n - 1], path[n], now);
      AllFromTwice(path[0].sessions, path[n - 1].sessions, path[n].sessions);
    }
  }

  lemma FiringFrom(s: Snapshot, t: Snapshot, now: Timespec)
    requires Firing(s, t, now)
    ensures AllFrom(s.sessions, t.sessions)
  {
    hide Fired, Handled, Dealt, Descends, AllFrom;
    DescendsFrom(s.sessions, s.connected, t.sessions, t.connected);
  }

  lemma TimerFrom(s: Snapshot, t: Snapshot, now: Timespec, later: Timespec)
    requires Effect(TimerRan(now, later), s, t)
    ensures AllFrom(s.sessions, t.sessions)
  {
    hide FiringPath, HeadDue, Snapshot.Sound, Pushes, AllFrom;
    var path: seq<Snapshot> :| TimerPath(path, s, t, now, later);
    LengthOfFirings(path, now);
    PathFrom(path, now);
    if PingDue(s, now) {
      PushKeepsPlaces(s, path[0].(pingStamp := s.pingStamp), Ping, later);
      SameFrom(s.sessions, path[0].sessions);
      AllFromTwice(s.sessions, path[0].sessions, t.sessions);
    }
  }

  lemma LengthOfFirings(path: seq<Snapshot>, now: Timespec)
    requires FiringPath(path, now)
    ensures path != []
  {
    hide Snapshot.Sound, Firing, HeadDue;
  }

  lemma LeftFrom(s: Snapshot, t: Snapshot, i: nat)
    requires Closing(s, t, i) || Closed(s, t, i)
    ensures AllFrom(s.sessions, t.sessions)
  {
    hide Framed, Kept, AllFrom, Descends;
    if t == s {
      SameFrom(s.sessions, t.sessions);
    } else if i < s.connected {
      VacatedTwiceDescends(s.sessions, s.connected, i);
      DescendsFrom(s.sessions, s.connected, t.sessions, t.connected);
    } else {
      VacatedDescends(s.sessions, s.connected, i);
      DescendsFrom(s.sessions, s.connected, t.sessions, t.connected);
    }
  }

  lemma AckKeepsPlaces(s: Snapshot, t: Snapshot, i: nat, ackId: nat)
    requires Acked(s, t, i, ackId)
    ensures i < |s.sessions| && SamePlaces(s.sessions, t.sessions)
  {
    hide Framed, Kept;
  }

  lemma {:induction false} PushesKeepPlaces(path: seq<Snapshot>, updates: seq<Update>, now: Timespec)
    requires PushPath(path, updates, now)
    ensures SamePlaces(path[0].sessions, path[|updates|].sessions)
    decreases |updates|
  {
    hide Snapshot.Sound, Pushes;
    if updates != [] {
      var n := |updates| - 1;
      PushesKeepPlaces(path[..n + 1], updates[..n], now);
      PushKeepsPlaces(path[n], path[n + 1], updates[n].payload, now);
    }
  }

  lemma HandshakeFrom(s: Snapshot, t: Snapshot, clientId: nat, now: Timespec)
    requires HandshakeDone(s, t, clientId, now)
    ensures AllFrom(s.sessions, t.sessions)
  {
    hide SessionLemmas.Dumped, Kept, Addresses, ChunkDatagrams, OthersKept, WithChunks;
    var i, c := s.lookup[clientId] - 1, s.connected;
    forall x | 0 <= x < |t.sessions|
      ensures From(s.sessions, t.sessions[x])
    {
      var y := if x == c then i else if x == i then c else x;
      assert s.sessions[y].id == t.sessions[x].id && s.sessions[y].remoteIdLast == t.sessions[x].remoteIdLast;
    }
  }

  /** One more session, with a new id. */
  lemma AcceptedLast(s: Snapshot, t: Snapshot, clientId: nat, peer: Peer, now: Timespec, o: nat)
    requires s.Sound() && t.Sound() && Accepted(s, t, clientId, peer, now) && o in s.chains
    ensures Last(t, o) == Last(s, o)
  {
    hide Snapshot.Sound, NewPacket;
    var i := RecordAt(s, o);
    assert t.sessions[..|s.sessions|][i] == s.sessions[i];
    var j := RecordAt(t, o);
  }

  /** It starts with nothing taken. */
  lemma StartsWithNothing(s: Snapshot, t: Snapshot, clientId: nat, peer: Peer, now: Timespec)
    requires s.Sound() && t.Sound() && Accepted(s, t, clientId, peer, now)
    ensures s.NextId() in t.chains && Last(t, s.NextId()) == 0
  {
    hide Snapshot.Sound, NewPacket;
    var j := RecordAt(t, s.NextId());
    assert t.sessions[|s.sessions|].id == s.NextId();
  }

  // ---------------------------------------------------------------- what the session itself sends

  /** The proxy takes the packet: it passes its updates on, and notes and acknowledges it. */
  predicate Takes(e: Event, s: Snapshot, o: nat) {
    && e.Received? && FromSession(s, e.packet, e.peer) && e.packet.sessionId == o && e.packet.ackreq
    && IsNext(s, s.lookup[o] - 1, e.packet.remoteId)
  }

  lemma AnsweredLast(s: Snapshot, t: Snapshot, i: nat, remoteId: Word, updates: seq<Update>, now: Timespec)
    requires Answered(s, t, i, remoteId, updates, now)
    ensures i < |s.sessions| == |t.sessions|
    ensures forall j :: 0 <= j < |s.sessions| ==>
      && t.sessions[j].id == s.sessions[j].id
      && t.sessions[j].remoteIdLast ==
         if j == i && IsNext(s, i, remoteId) then remoteId else s.sessions[j].remoteIdLast
  {
    hide Snapshot.Sound, PushPath, IsNext;
    if IsNext(s, i, remoteId) {
      var path: seq<Snapshot> :| Taken(path, s, t, i, remoteId, updates, now);
      assert |path| == |updates| + 1 by { LengthOfPushes(path, updates, now); }
      PushesKeepPlaces(path, updates, now);
    }
  }

  /** A packet from session `i`. */
  lemma SessionLast(s: Snapshot, t: Snapshot, i: nat, p: Packet, now: Timespec, o: nat)
    requires s.Sound() && t.Sound() && o in s.chains && o in t.chains && !(p.syn && p.ackreq)
    requires i < |s.sessions| && SessionReceived(s, t, i, p, now)
    ensures Last(t, o) ==
      if o == s.sessions[i].id && p.ackreq && IsNext(s, i, p.remoteId) then p.remoteId else Last(s, o)
  {
    hide Snapshot.Sound, Acked, Left, Answered, IsNext, Closed, Closing;
    var u :| InSession(s, u, t, i, p, now);
    if p.ack { AckKeepsPlaces(s, u, i, p.ackId); }
    var x := RecordAt(s, o);
    if p.syn && (p.opcode == ClosingOp || p.opcode == ClosedOp) {
      LeftFrom(u, t, i);
      SameFrom(s.sessions, u.sessions);
      AllFromTwice(s.sessions, u.sessions, t.sessions);
      LastKept(s, t, o);
    } else {
      var y := RecordAt(t, o);
      if p.ackreq {
        AnsweredLast(u, t, i, p.remoteId, p.updates, now);
        SameNext(s, u, i, p.remoteId);
      }
    }
  }

  lemma RequestLast(s: Snapshot, t: Snapshot, clientId: nat, peer: Peer, now: Timespec, o: nat)
    requires s.Sound() && t.Sound() && o in s.chains && o in t.chains && OpenRequested(s, t, clientId, peer, now)
    ensures Last(t, o) == Last(s, o)
  {
    hide Snapshot.Sound, Accepted;
    if s.Unused(clientId) && s.HasRoom() { AcceptedLast(s, t, clientId, peer, now, o); }
  }

  lemma OpeningLast(s: Snapshot, t: Snapshot, p: Packet, peer: Peer, now: Timespec, o: nat)
    requires s.Sound() && t.Sound() && o in s.chains && o in t.chains && OpeningReceived(s, t, p, peer, now)
    ensures Last(t, o) == Last(s, o)
  {
    hide Snapshot.Sound, OpenRequested, HandshakeDone, AllFrom, Last;
    if IsOpenRequest(p) {
      RequestLast(s, t, p.sessionId, peer, now, o);
    } else if !p.syn && p.ack && s.Opens(p.sessionId, peer) {
      HandshakeFrom(s, t, p.sessionId, now);
      LastKept(s, t, o);
    }
  }

  /** No event but a packet that is taken changes what the proxy expects from a session. */
  lemma EventLast(e: Event, s: Snapshot, t: Snapshot, o: nat)
    requires s.Sound() && t.Sound() && o in s.chains && o in t.chains && Effect(e, s, t) && WellFormed(e)
    ensures Last(t, o) == if Takes(e, s, o) then e.packet.remoteId else Last(s, o)
  {
    hide Snapshot.Sound, OpeningReceived, SessionReceived, IsNext, AllFrom, TimerPath, FlushedAll;
    match e {
      case Received(p, peer, now) =>
        if IsOpening(p) {
          OpeningLast(s, t, p, peer, now, o);
          var i := RecordAt(s, o);
          IdHigh(s, i);
        } else if FromSession(s, p, peer) {
          KnownRecord(s, p.sessionId);
          SessionLast(s, t, s.lookup[p.sessionId] - 1, p, now, o);
        }
      case TimerRan(now, later) =>
        TimerFrom(s, t, now, later);
        LastKept(s, t, o);
      case Shutdown(now) =>
        ShutdownFrom(s, t, now);
        LastKept(s, t, o);
      case Restart =>
    }
  }

  lemma ShutdownFrom(s: Snapshot, t: Snapshot, now: Timespec)
    requires Effect(Shutdown(now), s, t)
    ensures AllFrom(s.sessions, t.sessions)
  {
    hide AllFrom;
    SameFrom(s.sessions, t.sessions);
  }

  // ---------------------------------------------------------------- runs

  /** The numbers of the packets that have been taken from the session by the first `n` events; `numbers` says which of
      the client's packets each event brings. */
  function TakenNumbers(events: seq<Event>, trace: seq<Snapshot>, numbers: seq<nat>, n: nat, o: nat): seq<nat>
    requires n <= |events| && n <= |trace| && n <= |numbers|
  {
    if n == 0 then []
    else
      TakenNumbers(events, trace, numbers, n - 1, o)
      + if Takes(events[n - 1], trace[n - 1], o) then [numbers[n - 1]] else []
  }

  /** The event is a packet from session `o` that wants to be acknowledged. */
  predicate IsData(e: Event, s: Snapshot, o: nat) {
    e.Received? && FromSession(s, e.packet, e.peer) && e.packet.sessionId == o && e.packet.ackreq
  }

  /** While session `o` lasts, the network hands over copies of the client's packets, in any order and any number of
      them, but none that is a whole round ahead of or behind those that have been taken. */
  ghost predicate InWindow(events: seq<Event>, handled: nat, trace: seq<Snapshot>, numbers: seq<nat>, o: nat,
                           base: nat)
  {
    && Traced(events, handled, trace) && |numbers| == |events|
    && (forall k :: 0 <= k < |events| ==> WellFormed(events[k]))
    && (forall k :: 0 <= k <= handled ==> o in trace[k].chains)
    && forall k :: 0 <= k < handled && IsData(events[k], trace[k], o) ==>
         && numbers[k] > 0 && events[k].packet.remoteId == numbers[k] % REMOTE_IDS
         && -REMOTE_IDS < Lead(base + |TakenNumbers(events, trace, numbers, k, o)|, numbers[k]) < REMOTE_IDS
  }

  /** Packet `k` is taken exactly if it is the one that comes after those that have been. */
  ghost predicate NextTaken(events: seq<Event>, trace: seq<Snapshot>, numbers: seq<nat>, o: nat, base: nat, k: nat)
    requires k < |events| && k < |trace| && k < |numbers|
  {
    IsData(events[k], trace[k], o) ==>
      (Takes(events[k], trace[k], o) <==> numbers[k] == base + |TakenNumbers(events, trace, numbers, k, o)| + 1)
  }

  /** Whatever else happens, the packets of a session are taken once each, in order and without a gap. */
  lemma {:induction false} TakenInOrder(events: seq<Event>, handled: nat, trace: seq<Snapshot>, numbers: seq<nat>,
                                        o: nat, base: nat, n: nat)
    requires InWindow(events, handled, trace, numbers, o, base) && Last(trace[0], o) == base % REMOTE_IDS
    requires n <= handled
    ensures var taken := TakenNumbers(events, trace, numbers, n, o);
      && Last(trace[n], o) == (base + |taken|) % REMOTE_IDS
      && forall i :: 0 <= i < |taken| ==> taken[i] == base + 1 + i
    ensures forall k :: 0 <= k < n ==> NextTaken(events, trace, numbers, o, base, k)
  {
    hide Snapshot.Sound, Effect, Trips, WellFormed, Last, Takes, IsData;
    if n > 0 {
      var k := n - 1;
      TakenInOrder(events, handled, trace, numbers, o, base, k);
      EventLast(events[k], trace[k], trace[k + 1], o);
      if IsData(events[k], trace[k], o) {
        TakesNext(events[k], trace[k], o, base + |TakenNumbers(events, trace, numbers, k, o)|, numbers[k]);
      } else {
        TakesData(events[k], trace[k], o);
      }
    }
  }

  lemma TakesData(e: Event, s: Snapshot, o: nat)
    ensures Takes(e, s, o) ==> IsData(e, s, o)
  {
  }

  lemma TakesNext(e: Event, s: Snapshot, o: nat, taken: nat, n: nat)
    requires IsData(e, s, o) && Last(s, o) == taken % REMOTE_IDS && n > 0
    requires e.packet.remoteId == n % REMOTE_IDS && -REMOTE_IDS < Lead(taken, n) < REMOTE_IDS
    ensures Takes(e, s, o) <==> n == taken + 1
    ensures n == taken + 1 ==> e.packet.remoteId == (taken + 1) % REMOTE_IDS
  {
    NextIsExact(taken, n);
  }
}
