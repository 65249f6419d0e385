/** Which packets change who is there: who comes in, who is connected, and who leaves. */
module Receipts {
  import opened Basics
  import opened ProxyState
  import opened ProxyServer
  import opened JoinLemmas
  import opened SessionLemmas
  import opened TableLemmas
  import opened History
  import opened Effects
  import opened SoundStates
  import opened ClosingDown

  /** A packet that is too short, or is sent under the id of a session by somebody else or under that of nobody, changes
      nothing. */
  lemma StrangersChangeNothing(e: Event, s: Snapshot, t: Snapshot)
    requires s.Sound() && Effect(e, s, t) && e.Received?
    requires e.packet.len < 12 || (e.packet.sessionId >= 0x8000 && !Has(s, e.packet.sessionId, e.peer))
    ensures t == s
  {
    hide Snapshot.Sound, OpeningReceived, SessionReceived;
    SenderIsThere(s, e.packet, e.peer);
  }

  lemma SenderIsThere(s: Snapshot, p: Packet, peer: Peer)
    requires s.Sound()
    ensures FromSession(s, p, peer) ==> Has(s, p.sessionId, peer)
  {
    hide Snapshot.Sound;
    if FromSession(s, p, peer) {
      KnownRecord(s, p.sessionId);
      var i := s.lookup[p.sessionId] - 1;
      assert Has(s, s.sessions[i].id, s.sessions[i].peer);
    }
  }

  // ---------------------------------------------------------------- who is there

  lemma {:induction false} PathKeys(path: seq<Snapshot>, now: Timespec)
    requires FiringPath(path, now)
    ensures path[|path| - 1].chains.Keys <= path[0].chains.Keys
  {
    hide Snapshot.Sound, Firing, HeadDue;
    if |path| > 1 {
      var n := |path| - 1;
      PathKeys(path[..n], now);
      assert path[..n][n - 1] == path[n - 1];
      assert HeadDue(path[n - 1], now) && Firing(path[n - 1], path[n - 1 + 1], now);
      FiringKeys(path[n - 1], path[n], now);
    }
  }

  lemma PushKeys(s: Snapshot, t: Snapshot, payload: Payload, stamp: Timespec)
    requires Pushes(s, t, payload, stamp)
    ensures t.chains.Keys == s.chains.Keys
  {
    hide Pushed, PushDatagrams, OnlyNexts;
  }

  lemma TimerKeys(s: Snapshot, t: Snapshot, now: Timespec, later: Timespec)
    requires Effect(TimerRan(now, later), s, t)
    ensures t.chains.Keys <= s.chains.Keys
  {
    hide Snapshot.Sound, Firing, HeadDue, Pushes;
    var path: seq<Snapshot> :| TimerPath(path, s, t, now, later);
    PathKeys(path, now);
    if PingDue(s, now) { PushKeys(s, path[0].(pingStamp := s.pingStamp), Ping, later); }
  }

  lemma {:induction false} PushesKeys(path: seq<Snapshot>, updates: seq<Update>, now: Timespec)
    requires PushPath(path, updates, now)
    ensures path[|updates|].chains.Keys == path[0].chains.Keys
    decreases |updates|
  {
    hide Snapshot.Sound, Pushes;
    if updates != [] {
      var n := |updates| - 1;
      PushesKeys(path[..n + 1], updates[..n], now);
      PushKeys(path[n], path[n + 1], updates[n].payload, now);
    }
  }

  /** A packet of session `i` makes that session leave, or nobody. */
  lemma SessionKeys(s: Snapshot, t: Snapshot, i: nat, p: Packet, now: Timespec)
    requires SessionReceived(s, t, i, p, now) && i < |s.sessions| && s.Sound()
    ensures t.chains.Keys == if p.syn && (p.opcode == ClosingOp || (p.opcode == ClosedOp && s.IsClosing(i)))
                             then s.chains.Keys - {s.sessions[i].id} else s.chains.Keys
  {
    hide Snapshot.Sound, Acked, Left, Answered, Snapshot.IsClosing;
    var u :| InSession(s, u, t, i, p, now);
    if p.ack { AckedKeys(s, u, i, p.ackId); }
    if p.syn && p.opcode == ClosingOp {
      LeftKeys(u, t, i);
    } else if p.syn && p.opcode == ClosedOp {
      SameClosing(s, u, i, p);
      if u.IsClosing(i) { LeftKeys(u, t, i); }
    } else if p.ackreq {
      AnsweredKeys(u, t, i, p.remoteId, p.updates, now);
    }
  }

  lemma AckedKeys(s: Snapshot, t: Snapshot, i: nat, ackId: nat)
    requires Acked(s, t, i, ackId)
    ensures t.chains.Keys == s.chains.Keys && i < |t.sessions| == |s.sessions| && t.sessions[i].id == s.sessions[i].id
  {
    hide Framed, Kept;
  }

  lemma LeftKeys(s: Snapshot, t: Snapshot, i: nat)
    requires Left(s, t, i)
    ensures i < |s.sessions| && t.chains.Keys == s.chains.Keys - {s.sessions[i].id}
  {
    hide Framed, Kept;
  }

  /** The acknowledgement in a packet does not change whether its session is closing. */
  lemma SameClosing(s: Snapshot, u: Snapshot, i: nat, p: Packet)
    requires s.Sound() && u.Sound() && i < |s.sessions| && if p.ack then Acked(s, u, i, p.ackId) else u == s
    ensures i < |u.sessions| && (u.IsClosing(i) <==> s.IsClosing(i))
  {
    hide Snapshot.Sound, Snapshot.IsClosing, Framed, Kept;
    if i < s.connected {
      NotClosing(s, i);
      NotClosing(u, i);
    } else {
      ClosingByName(s, i);
      ClosingByName(u, i);
    }
  }

  lemma NotClosing(s: Snapshot, i: nat)
    requires s.Sound() && i < s.connected && i < |s.sessions|
    ensures !s.IsClosing(i)
  {
    hide QueueOk, PacketsOk, TableOk, ChainKeysOk, Recorded, Consecutive;
    assert SessionOk(s.states, s.bodies, s.chains, {}, s.sessions[i], true);
  }

  lemma AnsweredKeys(s: Snapshot, t: Snapshot, i: nat, remoteId: Word, updates: seq<Update>, now: Timespec)
    requires Answered(s, t, i, remoteId, updates, now)
    ensures t.chains.Keys == s.chains.Keys
  {
    hide Snapshot.Sound, PushPath, IsNext;
    if IsNext(s, i, remoteId) {
      var path: seq<Snapshot> :| Taken(path, s, t, i, remoteId, updates, now);
      assert |path| == |updates| + 1 by { LengthOfPushes(path, updates, now); }
      PushesKeys(path, updates, now);
    }
  }

  lemma AcceptedKeys(s: Snapshot, t: Snapshot, clientId: nat, peer: Peer, now: Timespec)
    requires Accepted(s, t, clientId, peer, now)
    ensures t.chains.Keys == s.chains.Keys + {s.NextId()} && s.NextId() !in s.chains
  {
    hide NewPacket;
  }

  lemma HandshakeKeys(s: Snapshot, t: Snapshot, clientId: nat, now: Timespec)
    requires s.Sound() && HandshakeDone(s, t, clientId, now)
    ensures t.chains.Keys == s.chains.Keys
  {
    hide Snapshot.Sound, Dumped, Kept, ChunkDatagrams, WithChunks, OthersKept, Addresses;
    IdHigh(s, s.lookup[clientId] - 1);
  }

  /** The request of a client that is not known yet, which there is room for. */
  predicate ComesIn(e: Event, s: Snapshot) {
    && e.Received? && e.packet.len == 20 && e.packet.syn && e.packet.opcode == OpenOp
    && e.packet.sessionId < 0x8000 && s.Unused(e.packet.sessionId)
    && |s.sessions| < s.limit && !s.shutting
  }

  /** A packet from the session's own client that closes the session, or agrees to its being closed. */
  predicate GoesOut(e: Event, s: Snapshot, o: nat) {
    && e.Received? && e.packet.len >= 12 && e.packet.sessionId == o && Has(s, o, e.peer) && e.packet.syn
    && (e.packet.opcode == ClosingOp
        || (e.packet.opcode == ClosedOp
            && forall i :: 0 <= i < |s.sessions| && s.sessions[i].id == o ==> s.IsClosing(i)))
  }

  lemma OpeningKeys(e: Event, s: Snapshot, t: Snapshot)
    requires s.Sound() && e.Received? && IsOpening(e.packet) && OpeningReceived(s, t, e.packet, e.peer, e.now)
    ensures if ComesIn(e, s) then t.chains.Keys == s.chains.Keys + {s.NextId()} && s.NextId() !in s.chains
            else t.chains.Keys == s.chains.Keys
  {
    hide Snapshot.Sound, Accepted, HandshakeDone;
    SoundLimit(s);
    var p := e.packet;
    if IsOpenRequest(p) {
      if s.Unused(p.sessionId) && s.HasRoom() { AcceptedKeys(s, t, p.sessionId, e.peer, e.now); }
    } else if !p.syn && p.ack && s.Opens(p.sessionId, e.peer) {
      HandshakeKeys(s, t, p.sessionId, e.now);
    }
  }

  /** Whoever is there was there before, unless the event is the request of a client that comes in. */
  lemma NewcomerExactlyWhen(e: Event, s: Snapshot, t: Snapshot)
    requires s.Sound() && t.Sound() && Effect(e, s, t)
    ensures t.chains.Keys <= s.chains.Keys <==> !ComesIn(e, s)
  {
    hide Snapshot.Sound, OpeningReceived, SessionReceived, TimerPath, Has, Snapshot.IsClosing;
    match e {
      case Received(p, peer, now) =>
        if IsOpening(p) {
          OpeningKeys(e, s, t);
        } else if FromSession(s, p, peer) {
          SessionKeys(s, t, s.lookup[p.sessionId] - 1, p, now);
        }
      case TimerRan(now, later) => TimerKeys(s, t, now, later);
      case Shutdown(now) => ShutdownKeys(s, t, now);
      case Restart =>
    }
  }

  lemma ShutdownKeys(s: Snapshot, t: Snapshot, now: Timespec)
    requires s.Sound() && t.Sound() && Effect(Shutdown(now), s, t)
    ensures t.chains.Keys == s.chains.Keys
  {
    hide Snapshot.Sound, AllClosing;
    if s.sessions != [] { FlushedKeys(s, t, now); }
  }

  lemma FlushedKeys(s: Snapshot, t: Snapshot, now: Timespec)
    requires s.Sound() && t.Sound() && FlushedAll(s.(shutting := true), t, now)
    ensures t.chains.Keys == s.chains.Keys
  {
    hide Snapshot.Sound, AllClosing;
    forall o | o in s.chains
      ensures o in t.chains
    {
      var i := RecordWith(s, o);
      IdHigh(t, i);
    }
    forall o | o in t.chains
      ensures o in s.chains
    {
      var i := RecordWith(t, o);
      IdHigh(s, i);
    }
  }

  /** Of all packets that are received, only its own client's farewell makes a session leave; and it always does. */
  lemma LeaverExactlyWhen(e: Event, s: Snapshot, t: Snapshot, o: nat)
    requires s.Sound() && Effect(e, s, t) && e.Received? && o in s.chains
    ensures o !in t.chains <==> GoesOut(e, s, o)
  {
    hide Snapshot.Sound, OpeningReceived, SessionReceived, Snapshot.IsClosing;
    var x := RecordAt(s, o);
    IdHigh(s, x);
    var p := e.packet;
    if IsOpening(p) {
      OpeningKeys(e, s, t);
    } else if FromSession(s, p, e.peer) {
      KnownRecord(s, p.sessionId);
      SessionKeys(s, t, s.lookup[p.sessionId] - 1, p, e.now);
    }
  }

  // ---------------------------------------------------------------- who is connected

  /** Whoever is connected was connected before. */
  ghost predicate NobodyConnects(s: Snapshot, t: Snapshot) {
    forall i :: 0 <= i < t.connected && i < |t.sessions| ==> IsConnected(s.sessions, s.connected, t.sessions[i].id)
  }

  /** A client that is in its opening handshake acknowledges the accept response. */
  predicate Completes(e: Event, s: Snapshot) {
    && e.Received? && e.packet.len >= 12 && e.packet.sessionId < 0x8000 && !e.packet.syn && e.packet.ack
    && exists i :: 0 <= i < |s.sessions| && s.sessions[i].wireId == e.packet.sessionId && s.sessions[i].peer == e.peer
  }

  lemma DescendsConnects(s: Snapshot, t: Snapshot)
    requires Descends(s.sessions, s.connected, t.sessions, t.connected)
    ensures NobodyConnects(s, t)
  {
    forall i | 0 <= i < t.connected && i < |t.sessions|
      ensures IsConnected(s.sessions, s.connected, t.sessions[i].id)
    {
      assert GoesBack(t.sessions[i], true, s.sessions, s.connected);
    }
  }

  lemma SameConnects(s: Snapshot, t: Snapshot)
    requires t.connected == s.connected <= |s.sessions| <= |t.sessions|
    requires forall i :: 0 <= i < s.connected ==> t.sessions[i].id == s.sessions[i].id
    ensures NobodyConnects(s, t)
  {
  }

  lemma ConnectsTwice(s: Snapshot, t: Snapshot, u: Snapshot)
    requires NobodyConnects(s, t) && NobodyConnects(t, u)
    ensures NobodyConnects(s, u)
  {
    forall i | 0 <= i < u.connected && i < |u.sessions|
      ensures IsConnected(s.sessions, s.connected, u.sessions[i].id)
    {
      var j :| 0 <= j < t.connected && j < |t.sessions| && t.sessions[j].id == u.sessions[i].id;
    }
  }

  lemma PushConnects(s: Snapshot, t: Snapshot, payload: Payload, stamp: Timespec)
    requires Pushes(s, t, payload, stamp)
    ensures NobodyConnects(s, t)
  {
    hide Pushed, PushDatagrams, OnlyNexts;
    SameConnects(s, t);
  }

  lemma {:induction false} PushesConnect(path: seq<Snapshot>, updates: seq<Update>, now: Timespec)
    requires PushPath(path, updates, now)
    ensures NobodyConnects(path[0], path[|updates|])
    decreases |updates|
  {
    hide Snapshot.Sound, Pushes;
    if updates != [] {
      var n := |updates| - 1;
      PushesConnect(path[..n + 1], updates[..n], now);
      PushConnects(path[n], path[n + 1], updates[n].payload, now);
      hide NobodyConnects;
      ConnectsTwice(path[0], path[n], path[n + 1]);
    }
  }

  lemma TimerConnects(s: Snapshot, t: Snapshot, now: Timespec, later: Timespec)
    requires Effect(TimerRan(now, later), s, t)
    ensures NobodyConnects(s, t)
  {
    hide Snapshot.Sound, Firing, HeadDue, Pushes, Descends, NobodyConnects;
    var path: seq<Snapshot> :| TimerPath(path, s, t, now, later);
    PathDescends(path, now);
    DescendsConnects(path[0], t);
    if PingDue(s, now) {
      var u := path[0].(pingStamp := s.pingStamp);
      PushConnects(s, u, Ping, later);
      StampAside(s, path[0], t, s.pingStamp);
    }
  }

  lemma StampAside(s: Snapshot, u: Snapshot, t: Snapshot, stamp: Timespec)
    requires NobodyConnects(s, u.(pingStamp := stamp)) && NobodyConnects(u, t)
    ensures NobodyConnects(s, t)
  {
    ConnectsTwice(s, u, t);
  }

  lemma SessionConnects(s: Snapshot, t: Snapshot, i: nat, p: Packet, now: Timespec)
    requires s.Sound() && SessionReceived(s, t, i, p, now) && i < |s.sessions|
    ensures NobodyConnects(s, t)
  {
    hide Snapshot.Sound, Acked, Closing, Closed, Answered, NobodyConnects;
    var u :| InSession(s, u, t, i, p, now);
    Queued(s);
    Queued(u);
    if p.ack { AckedConnects(s, u, i, p.ackId); } else { SameConnects(s, u); }
    if p.syn && (p.opcode == ClosingOp || p.opcode == ClosedOp) {
      LeftConnects(u, t, i);
    } else if p.ackreq {
      AnsweredConnects(u, t, i, p.remoteId, p.updates, now);
    } else {
      SameConnects(u, t);
    }
    ConnectsTwice(s, u, t);
  }

  lemma AckedConnects(s: Snapshot, t: Snapshot, i: nat, ackId: nat)
    requires Acked(s, t, i, ackId) && s.connected <= |s.sessions|
    ensures NobodyConnects(s, t)
  {
    hide Framed, Kept;
    SameConnects(s, t);
  }

  lemma LeftConnects(s: Snapshot, t: Snapshot, i: nat)
    requires s.connected <= |s.sessions| && (Closing(s, t, i) || Closed(s, t, i))
    ensures NobodyConnects(s, t)
  {
    hide Framed, Kept, NobodyConnects, Descends;
    if t == s {
      SameConnects(s, t);
    } else if i < s.connected {
      VacatedTwiceDescends(s.sessions, s.connected, i);
      DescendsConnects(s, t);
    } else {
      VacatedDescends(s.sessions, s.connected, i);
      DescendsConnects(s, t);
    }
  }

  lemma AnsweredConnects(s: Snapshot, t: Snapshot, i: nat, remoteId: Word, updates: seq<Update>, now: Timespec)
    requires Answered(s, t, i, remoteId, updates, now) && s.connected <= |s.sessions|
    ensures NobodyConnects(s, t)
  {
    hide Snapshot.Sound, PushPath, IsNext;
    if IsNext(s, i, remoteId) {
      var path: seq<Snapshot> :| Taken(path, s, t, i, remoteId, updates, now);
      assert |path| == |updates| + 1 by { LengthOfPushes(path, updates, now); }
      PushesConnect(path, updates, now);
      assert forall j :: 0 <= j < |t.sessions| ==> t.sessions[j].id == path[|updates|].sessions[j].id;
    } else {
      SameConnects(s, t);
    }
  }

  lemma AcceptedConnects(s: Snapshot, t: Snapshot, clientId: nat, peer: Peer, now: Timespec)
    requires Accepted(s, t, clientId, peer, now) && s.connected <= |s.sessions|
    ensures NobodyConnects(s, t)
  {
    hide NewPacket;
    assert forall i :: 0 <= i < s.connected ==> t.sessions[i] == t.sessions[..|s.sessions|][i] == s.sessions[i];
    SameConnects(s, t);
  }

  lemma HandshakeConnects(s: Snapshot, t: Snapshot, clientId: nat, now: Timespec)
    requires s.Sound() && HandshakeDone(s, t, clientId, now)
    ensures !NobodyConnects(s, t)
  {
    hide Snapshot.Sound, Dumped, Kept, ChunkDatagrams, WithChunks, OthersKept, Addresses;
    var x := s.lookup[clientId] - 1;
    assert t.sessions[s.connected].id == s.sessions[x].id;
    forall j | 0 <= j < s.connected && j < |s.sessions|
      ensures s.sessions[j].id != s.sessions[x].id
    {
      IdOf(s, j);
      IdOf(s, x);
    }
  }

  lemma OpeningConnects(e: Event, s: Snapshot, t: Snapshot)
    requires s.Sound() && e.Received? && IsOpening(e.packet) && OpeningReceived(s, t, e.packet, e.peer, e.now)
    ensures NobodyConnects(s, t) <==> !Completes(e, s)
  {
    hide Snapshot.Sound, OpenRequested, HandshakeDone, NobodyConnects;
    var p := e.packet;
    Queued(s);
    KnownClient(s, p.sessionId, e.peer);
    if IsOpenRequest(p) {
      RequestConnects(s, t, p.sessionId, e.peer, e.now);
    } else if !p.syn && p.ack && s.Opens(p.sessionId, e.peer) {
      HandshakeConnects(s, t, p.sessionId, e.now);
    } else {
      SameConnects(s, t);
    }
  }

  lemma RequestConnects(s: Snapshot, t: Snapshot, clientId: nat, peer: Peer, now: Timespec)
    requires OpenRequested(s, t, clientId, peer, now) && s.connected <= |s.sessions|
    ensures NobodyConnects(s, t)
  {
    hide Accepted, NobodyConnects;
    if s.Unused(clientId) && s.HasRoom() { AcceptedConnects(s, t, clientId, peer, now); } else { SameConnects(s, t); }
  }

  /** A client id leads to the session that is known by it. */
  lemma KnownClient(s: Snapshot, id: nat, peer: Peer)
    requires s.Sound() && id < 0x8000
    ensures s.Opens(id, peer) <==>
      exists i :: 0 <= i < |s.sessions| && s.sessions[i].wireId == id && s.sessions[i].peer == peer
  {
    hide Snapshot.Sound;
    if s.Opens(id, peer) { KnownWireId(s, id); }
    if i :| 0 <= i < |s.sessions| && s.sessions[i].wireId == id && s.sessions[i].peer == peer { IdOf(s, i); }
  }

  lemma KnownWireId(s: Snapshot, id: nat)
    requires s.Sound() && id < 0x8000 && s.Known(id)
    ensures s.SessionOf(id).wireId == id
  {
    hide QueueOk, PacketsOk, ChainKeysOk, SessionsOk, Recorded;
    assert Registered(s.lookup, id);
    RecordIds(s.sessions, s.connected, s.lookup, s.lookup[id] - 1);
  }

  /** Whoever is connected was connected before, unless the event completes an opening handshake. */
  lemma ConnectsExactlyWhen(e: Event, s: Snapshot, t: Snapshot)
    requires s.Sound() && Effect(e, s, t)
    ensures NobodyConnects(s, t) <==> !Completes(e, s)
  {
    hide Snapshot.Sound, OpeningReceived, SessionReceived, TimerPath, NobodyConnects;
    Queued(s);
    match e {
      case Received(p, peer, now) =>
        if IsOpening(p) {
          OpeningConnects(e, s, t);
        } else if FromSession(s, p, peer) {
          SessionConnects(s, t, s.lookup[p.sessionId] - 1, p, now);
        } else {
          SameConnects(s, t);
        }
      case TimerRan(now, later) => TimerConnects(s, t, now, later);
      case Shutdown(now) => ShutdownConnects(s, t, now);
      case Restart => SameConnects(s, t);
    }
  }

  lemma ShutdownConnects(s: Snapshot, t: Snapshot, now: Timespec)
    requires s.Sound() && Effect(Shutdown(now), s, t)
    ensures NobodyConnects(s, t)
  {
    hide Snapshot.Sound, AllClosing;
    Queued(s);
  }
}
