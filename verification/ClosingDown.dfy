/** Closing the proxy: until it is opened again nobody gets in, and whoever answers the closing request is gone. */
module ClosingDown {
  import opened Basics
  import opened ProxyState
  import opened ProxyServer
  import opened SessionLemmas
  import opened History
  import opened Draining
  import opened Effects
  import opened SoundStates
  import opened Runs
  import C = Client

  /** The server is being closed: nobody is connected, and everybody has been sent a closing request. */
  ghost predicate Winding(s: Snapshot) {
    s.shutting && s.connected == 0 && forall i :: 0 <= i < |s.sessions| ==> s.IsClosing(i)
  }

  /** There is a session with this id, opened from there. */
  predicate Has(s: Snapshot, id: nat, peer: Peer) {
    exists i :: 0 <= i < |s.sessions| && s.sessions[i].id == id && s.sessions[i].peer == peer
  }

  /** The answer of a client to the closing request. */
  predicate IsAnswer(e: Event, id: nat, peer: Peer) {
    && e.Received? && e.peer == peer && HEADER <= e.packet.len && e.packet.syn && e.packet.opcode == ClosedOp
    && e.packet.sessionId == id
  }

  // ---------------------------------------------------------------- the client's part

  predicate AsksToClose(p: C.Incoming, id: Word) {
    !p.ackreq && p.syn && p.opcode.ClosingOp? && p.sessionId == id
  }

  /** A closed answer for session `id` is what the client sends. */
  predicate Agrees(s: C.State, id: Word) {
    s.buffer.Close? && s.close == C.ClosePacket(id, false, C.ClosedOp)
  }

  /** Whatever a client has been through, and however often a closing request reaches it: it agrees, and says that
      the connection is closing at most once. */
  lemma {:induction false} ClientAgrees(s: C.State, packets: seq<C.Incoming>, id: Word)
    requires packets != [] && forall i :: 0 <= i < |packets| ==> AsksToClose(packets[i], id)
    ensures var (t, statuses) := C.ParsedAll(s, packets);
      && Agrees(t, id) && |statuses| == |packets|
      && forall i :: 0 <= i < |statuses| ==> (statuses[i].Closing? <==> i == 0 && !s.buffer.Close?)
    decreases |packets|
  {
    var t := C.Parsed(s, packets[0]).0;
    if |packets| > 1 {
      ClientAgrees(t, packets[1..], id);
    } else {
      assert C.ParsedAll(t, packets[1..]) == (t, []);
    }
  }

  // ---------------------------------------------------------------- while the server is being closed

  lemma ClosingByName(s: Snapshot, i: nat)
    requires s.Sound() && s.connected <= i < |s.sessions|
    ensures s.IsClosing(i) <==> s.sessions[i].wireId == s.sessions[i].id
    ensures s.sessions[i].id >= SERVER_ID
  {
    hide QueueOk, PacketsOk, ChainKeysOk, Recorded, Consecutive;
    assert SessionOk(s.states, s.bodies, s.chains, {}, s.sessions[i], false);
  }

  lemma FirstGoesBack(s: Snapshot, t: Snapshot)
    requires Descends(s.sessions, 0, t.sessions, t.connected) && t.Sound()
    ensures t.connected == 0
  {
    hide QueueOk, PacketsOk, SessionsOk, ChainKeysOk, Recorded;
    if t.sessions != [] { assert GoesBack(t.sessions[0], 0 < t.connected, s.sessions, 0); }
  }

  /** Records that go back to those of a server that is being closed have all been sent a closing request. */
  lemma StillWinding(s: Snapshot, t: Snapshot)
    requires Winding(s) && s.Sound() && t.Sound() && Descends(s.sessions, s.connected, t.sessions, t.connected)
    requires t.shutting
    ensures Winding(t) && forall id, peer :: Has(t, id, peer) ==> Has(s, id, peer)
  {
    hide Snapshot.Sound, Snapshot.IsClosing;
    FirstGoesBack(s, t);
    forall i | 0 <= i < |t.sessions|
      ensures t.IsClosing(i) && Has(s, t.sessions[i].id, t.sessions[i].peer)
    {
      assert GoesBack(t.sessions[i], false, s.sessions, 0);
      var j :| 0 <= j < |s.sessions| && SameSession(s.sessions[j], t.sessions[i])
        && (t.sessions[i].wireId != t.sessions[i].id ==> s.sessions[j].wireId != s.sessions[j].id);
      ClosingByName(s, j);
      ClosingByName(t, i);
    }
  }

  /** The ids that clients chose are not in use any more. */
  lemma NobodyOpens(s: Snapshot, id: nat)
    requires Winding(s) && s.Sound() && id < SERVER_ID
    ensures s.Unused(id) && !s.Known(id)
  {
    hide Snapshot.Sound, Snapshot.IsClosing;
    forall i | 0 <= i < |s.sessions|
      ensures s.sessions[i].id != id && s.sessions[i].wireId != id
    {
      ClosingByName(s, i);
    }
    UnusedId(s, id);
  }

  // ---------------------------------------------------------------- events

  lemma SameRecords(s: Snapshot, t: Snapshot)
    requires |t.sessions| == |s.sessions| && t.connected == s.connected
    requires forall i :: 0 <= i < |s.sessions| ==>
      SameSession(s.sessions[i], t.sessions[i]) && t.sessions[i].wireId == s.sessions[i].wireId
    ensures Descends(s.sessions, s.connected, t.sessions, t.connected)
  {
    DescendsSame(s.sessions, s.connected, t.sessions);
  }

  /** What session `i` sends while the server is being closed. */
  lemma InSessionDescends(s: Snapshot, t: Snapshot, i: nat, p: Packet, now: Timespec)
    requires Winding(s) && s.Sound() && t.Sound() && SessionReceived(s, t, i, p, now) && i < |s.sessions|
    requires !(p.ackreq && IsNext(s, i, p.remoteId)) && !(p.syn && p.ackreq)
    ensures t.shutting && Descends(s.sessions, s.connected, t.sessions, t.connected)
    ensures p.syn && p.opcode == ClosedOp ==> s.sessions[i].id !in t.chains
  {
    hide Snapshot.Sound, Acked, Closing, Closed, Snapshot.IsClosing;
    var u :| InSession(s, u, t, i, p, now);
    if p.ack { AckedRecords(s, u, i, p.ackId); } else { SameRecords(s, u); }
    StillWinding(s, u);
    if p.syn && (p.opcode == ClosingOp || p.opcode == ClosedOp) {
      LeftDescends(u, t, i);
    } else if p.ackreq {
      SameNext(s, u, i, p.remoteId);
      SameRecords(u, t);
    } else {
      SameRecords(u, t);
    }
    DescendsTwice(s.sessions, s.connected, u.sessions, u.connected, t.sessions, t.connected);
  }

  lemma AckedRecords(s: Snapshot, t: Snapshot, i: nat, ackId: nat)
    requires Acked(s, t, i, ackId)
    ensures Descends(s.sessions, s.connected, t.sessions, t.connected) && t.shutting == s.shutting
    ensures |t.sessions| == |s.sessions| && i < |s.sessions| && t.sent == s.sent
    ensures t.sessions[i] == s.sessions[i].(head := t.sessions[i].head)
  {
    SameRecords(s, t);
  }

  lemma LeftDescends(s: Snapshot, t: Snapshot, i: nat)
    requires Winding(s) && i < |s.sessions| && (Closing(s, t, i) || Closed(s, t, i))
    ensures t.shutting && Descends(s.sessions, s.connected, t.sessions, t.connected) && s.sessions[i].id !in t.chains
  {
    hide Framed, Kept, Descends;
    assert s.IsClosing(i);
    VacatedDescends(s.sessions, s.connected, i);
  }

  lemma {:induction false} PathDescends(path: seq<Snapshot>, now: Timespec)
    requires FiringPath(path, now)
    ensures var t := path[|path| - 1];
      t.shutting == path[0].shutting && Descends(path[0].sessions, path[0].connected, t.sessions, t.connected)
  {
    hide Snapshot.Sound, Firing, HeadDue, Descends;
    if |path| == 1 {
      SameRecords(path[0], path[0]);
    } else {
      var n := |path| - 1;
      var s, t := path[n - 1], path[n];
      PathDescends(path[..n], now);
      assert path[..n][n - 1] == s;
      assert HeadDue(path[n - 1], now) && Firing(path[n - 1], path[n - 1 + 1], now);
      FiringDescends(s, t, now);
      DescendsTwice(path[0].sessions, path[0].connected, s.sessions, s.connected, t.sessions, t.connected);
    }
  }

  lemma FiringDescends(s: Snapshot, t: Snapshot, now: Timespec)
    requires Firing(s, t, now)
    ensures t.shutting == s.shutting && Descends(s.sessions, s.connected, t.sessions, t.connected)
  {
    hide Fired, Handled, Dealt, Descends;
  }

  lemma TimerDescends(s: Snapshot, t: Snapshot, now: Timespec, later: Timespec)
    requires Winding(s) && Effect(TimerRan(now, later), s, t)
    ensures t.shutting && Descends(s.sessions, s.connected, t.sessions, t.connected)
  {
    hide FiringPath, HeadDue, Snapshot.IsClosing, Descends, Snapshot.Sound, Pushes;
    var path :| TimerPath(path, s, t, now, later);
    PathDescends(path, now);
  }

  /** Nobody gets in. */
  lemma OpeningDescends(s: Snapshot, t: Snapshot, p: Packet, peer: Peer, now: Timespec)
    requires Winding(s) && s.Sound() && IsOpening(p) && OpeningReceived(s, t, p, peer, now)
    ensures t == s || t == s.(sent := s.sent + [Reject(peer, p.sessionId)])
    ensures t.shutting && Descends(s.sessions, s.connected, t.sessions, t.connected)
  {
    hide Snapshot.IsClosing, Descends, Snapshot.Sound, Accepted, HandshakeDone;
    NobodyOpens(s, p.sessionId);
    SameRecords(s, t);
  }

  /** The record that the ids of a packet lead to. */
  lemma FoundBySession(s: Snapshot, e: Event, id: nat, peer: Peer)
    requires s.Sound() && e.Received? && e.peer == peer && HEADER <= e.packet.len && e.packet.sessionId == id
    requires Has(s, id, peer)
    ensures FromSession(s, e.packet, peer) && s.lookup[id] <= |s.sessions| && s.sessions[s.lookup[id] - 1].id == id
    ensures !IsOpening(e.packet)
  {
    hide Snapshot.Sound;
    var i :| 0 <= i < |s.sessions| && s.sessions[i].id == id && s.sessions[i].peer == peer;
    IdOf(s, i);
    IdHigh(s, i);
  }

  /** No event lets anybody in while the server is being closed, and whoever answers is gone. */
  lemma EventWinds(e: Event, s: Snapshot, t: Snapshot)
    requires Winding(s) && s.Sound() && t.Sound() && Effect(e, s, t) && !Trips(e, s, t) && WellFormed(e) && !e.Restart?
    ensures Winding(t) && forall id, peer :: Has(t, id, peer) ==> Has(s, id, peer) && !IsAnswer(e, id, peer)
  {
    hide Snapshot.Sound, Snapshot.IsClosing, OpeningReceived, SessionReceived, IsNext, Descends, Has, IsAnswer;
    match e {
      case TimerRan(now, later) =>
        TimerDescends(s, t, now, later);
      case Shutdown(_) =>
      case Received(p, peer, now) =>
        if IsOpening(p) {
          OpeningDescends(s, t, p, peer, now);
        } else if FromSession(s, p, peer) {
          InSessionDescends(s, t, s.lookup[p.sessionId] - 1, p, now);
        } else {
          SameRecords(s, t);
        }
    }
    StillWinding(s, t);
    AnswererGone(e, s, t);
  }

  lemma AnswererGone(e: Event, s: Snapshot, t: Snapshot)
    requires Winding(s) && s.Sound() && t.Sound() && Effect(e, s, t) && !Trips(e, s, t) && WellFormed(e)
    ensures forall id, peer :: Has(s, id, peer) && IsAnswer(e, id, peer) ==> !Has(t, id, peer)
  {
    hide Snapshot.Sound, Snapshot.IsClosing, SessionReceived, OpeningReceived, IsNext, Descends;
    forall id: nat, peer: Peer | Has(s, id, peer) && IsAnswer(e, id, peer)
      ensures !Has(t, id, peer)
    {
      FoundBySession(s, e, id, peer);
      InSessionDescends(s, t, s.lookup[id] - 1, e.packet, e.now);
      forall i | 0 <= i < |t.sessions|
        ensures t.sessions[i].id != id
      {
        IdHigh(t, i);
      }
    }
  }

  // ---------------------------------------------------------------- runs

  /** The proxy has been closed. */
  lemma ClosedIsWinding(s: Snapshot, t: Snapshot, now: Timespec)
    requires s.Sound() && t.Sound() && Effect(Shutdown(now), s, t) && !Trips(Shutdown(now), s, t)
    ensures Winding(t)
    ensures forall id, peer :: Has(t, id, peer) <==> Has(s, id, peer)
  {
    hide Snapshot.Sound;
    Queued(s);
    forall i | 0 <= i < |t.sessions|
      ensures t.IsClosing(i)
    {
      ClosingByName(t, i);
    }
  }

  /** Everybody is told. */
  lemma EverybodyIsTold(s: Snapshot, t: Snapshot, now: Timespec, id: nat, peer: Peer)
    requires Effect(Shutdown(now), s, t) && Has(s, id, peer)
    ensures exists m :: |s.sent| <= m < |t.sent| && t.sent[m] == Data(peer, id, 0, CloseRequest)
  {
    hide AllClosing;
    var i :| 0 <= i < |s.sessions| && s.sessions[i].id == id && s.sessions[i].peer == peer;
    assert t.sessions[i].id == id && t.sessions[i].peer == peer;
    assert t.sent[|t.sent| - 1 - i] == Data(peer, id, 0, CloseRequest);
  }

  /** From event `k` on the proxy is being closed, and is not opened again. */
  ghost predicate Winds(events: seq<Event>, handled: nat, trace: seq<Snapshot>, k: nat) {
    && Traced(events, handled, trace) && k <= handled && Winding(trace[k])
    && forall j :: k <= j < handled ==> !events[j].Restart? && WellFormed(events[j])
  }

  /** Whatever happens: the sessions that are left were there when the proxy was closed, have been sent a closing
      request, and have not answered it. */
  lemma {:induction false} WhoIsLeft(events: seq<Event>, handled: nat, trace: seq<Snapshot>, k: nat)
    requires Winds(events, handled, trace, k)
    ensures Winding(trace[handled])
    ensures forall id, peer :: Has(trace[handled], id, peer) ==>
      Has(trace[k], id, peer) && forall j :: k <= j < handled ==> !IsAnswer(events[j], id, peer)
  {
    hide Snapshot.Sound, Winding, Effect, Trips, Has, IsAnswer, WellFormed;
    if k < handled {
      var last := handled - 1;
      assert forall i :: 0 <= i < handled ==> trace[..handled][i] == trace[i];
      WhoIsLeft(events, last, trace[..handled], k);
      assert Effect(events[last], trace[last], trace[last + 1]);
      EventWinds(events[last], trace[last], trace[handled]);
    }
  }

  /** Once everybody has answered, in whatever order and however often, nobody is left, and the proxy can be opened
      again. */
  lemma EverybodyAnswered(events: seq<Event>, handled: nat, trace: seq<Snapshot>, k: nat, t: Snapshot)
    requires Winds(events, handled, trace, k)
    requires forall id, peer :: Has(trace[k], id, peer) ==>
      exists j :: k <= j < handled && IsAnswer(events[j], id, peer)
    ensures trace[handled].sessions == [] && !Trips(Restart, trace[handled], t)
  {
    hide Snapshot.Sound, Effect, Trips, IsAnswer, Snapshot.IsClosing;
    WhoIsLeft(events, handled, trace, k);
    var s := trace[handled];
    if s.sessions != [] {
      var id, peer := SomebodyThere(s);
      assert false;
    }
    NothingInTheWay(s, t);
  }

  lemma NothingInTheWay(s: Snapshot, t: Snapshot)
    requires s.shutting && s.sessions == []
    ensures !Trips(Restart, s, t)
  {
  }

  lemma SomebodyThere(s: Snapshot) returns (id: nat, peer: Peer)
    requires s.sessions != []
    ensures Has(s, id, peer)
  {
    id, peer := s.sessions[0].id, s.sessions[0].peer;
  }

  // ---------------------------------------------------------------- a client that closes

  /** A client asks to close its session. */
  predicate IsRequest(e: Event, id: nat, peer: Peer) {
    && e.Received? && e.peer == peer && HEADER <= e.packet.len && e.packet.syn && e.packet.opcode == ClosingOp
    && e.packet.sessionId == id && SERVER_ID <= id
  }

  /** The request ends the session and is answered; when it is repeated, because the answer was lost, it is ignored. */
  lemma ClosingIsAnsweredOnce(e: Event, s: Snapshot, t: Snapshot, u: Snapshot, id: nat, peer: Peer)
    requires s.Sound() && t.Sound() && Effect(e, s, t) && Effect(e, t, u) && IsRequest(e, id, peer) && Has(s, id, peer)
    ensures id !in t.chains && !t.Known(id) && t.sent == s.sent + [ClosedReply(peer, id)]
    ensures u == t
  {
    hide Snapshot.Sound, SessionReceived;
    FoundBySession(s, e, id, peer);
    var i := s.lookup[id] - 1;
    RequestObeyed(s, t, i, e.packet, e.now);
    forall j | 0 <= j < |t.sessions|
      ensures t.sessions[j].id != id && t.sessions[j].wireId != id
    {
      IdHigh(t, j);
      WireId(t, j);
    }
    UnusedId(t, id);
  }

  lemma RequestObeyed(s: Snapshot, t: Snapshot, i: nat, p: Packet, now: Timespec)
    requires SessionReceived(s, t, i, p, now) && i < |s.sessions| && p.syn && p.opcode == ClosingOp
    ensures s.sessions[i].id !in t.chains && t.sent == s.sent + [ClosedReply(s.sessions[i].peer, s.sessions[i].id)]
  {
    hide Snapshot.Sound, Acked, Left;
    var u :| InSession(s, u, t, i, p, now);
    if p.ack { AckedRecords(s, u, i, p.ackId); }
    LeftChains(u, t, i);
  }

  lemma LeftChains(s: Snapshot, t: Snapshot, i: nat)
    requires Left(s, t, i)
    ensures i < |s.sessions| && s.sessions[i].id !in t.chains
  {
    hide Framed, Kept;
  }

}
