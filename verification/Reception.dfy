/** What the proxy does with a packet it receives. */
module Reception {
  import opened Basics
  import opened IndexSet
  import opened ProxyState
  import opened ProxyServer
  import opened JoinLemmas
  import opened Sequence
  import opened History
  import opened Effects
  import opened SoundStates
  import opened TableLemmas
  import SessionLemmas

  /** The sessions are the same clients in the same order, and each has received as much as before. */
  ghost predicate SameClients(sessions0: seq<Session>, sessions1: seq<Session>) {
    && |sessions1| == |sessions0|
    && forall j :: 0 <= j < |sessions0| ==> Client(sessions1[j]) == Client(sessions0[j])
  }

  function Client(s: Session): (nat, nat, Peer, nat) {
    (s.id, s.wireId, s.peer, s.remoteIdLast)
  }

  lemma SameClientsRefl(a: seq<Session>)
    ensures SameClients(a, a)
  {
  }

  lemma PushedClients(s: Snapshot, t: Snapshot, payload: Payload, stamp: Timespec, sessions0: seq<Session>)
    requires Pushes(s, t, payload, stamp) && SameClients(sessions0, s.sessions)
    ensures SameClients(sessions0, t.sessions) && t.connected == s.connected && s.sent <= t.sent
  {
    hide PushDatagrams;
  }

  /** Pushes a payload to all connected sessions in a packet of its own. */
  method Push(server: Server, payload: CommandList, now: Timespec)
    requires server.Valid() && server.connected > 0
    modifies server
    ensures server.Valid() && Pushes(old(Now(server)), Now(server), payload, now)
  {
    hide Server.Inv, Server.Logged, Reached, Pushed, PushDatagrams;
    server.LengthOfTable();
    var p := server.BroadcastNew(payload, now);
  }

  /** Broadcasts every update to the connected sessions, each in a packet of its own, up to one that is for
      camera 0. */
  method BroadcastUpdates(server: Server, updates: seq<Update>, now: Timespec)
    returns (ok: bool, ghost path: seq<Snapshot>)
    requires server.Valid() && server.connected > 0
    modifies server
    ensures server.Valid() && 0 < |path| <= |updates| + 1 && PushPath(path, updates[..|path| - 1], now)
    ensures path[0] == old(Now(server)) && path[|path| - 1] == Now(server)
    ensures if ok then |path| == |updates| + 1 else |path| <= |updates| && updates[|path| - 1].NoCamera?
    ensures ok <==> NoCamera !in updates
    ensures SameClients(old(server.sessions), server.sessions) && server.connected == old(server.connected)
    ensures old(server.sent) <= server.sent
  {
    hide Server.Inv, Server.Logged, SameClients, Pushes, Snapshot.Sound;
    SameClientsRefl(server.sessions);
    path := [Now(server)];
    ValidIsSound(server);
    for i := 0 to |updates|
      invariant server.Valid() && |path| == i + 1 && PushPath(path, updates[..i], now)
      invariant path[0] == old(Now(server)) && path[i] == Now(server)
      invariant NoCamera !in updates[..i]
      invariant SameClients(old(server.sessions), server.sessions) && server.connected == old(server.connected)
      invariant old(server.sent) <= server.sent
    {
      if updates[i].NoCamera? {
        return false, path;
      }
      Push(server, updates[i].payload, now);
      PushedClients(path[i], Now(server), updates[i].payload, now, old(server.sessions));
      ValidIsSound(server);
      path := path + [Now(server)];
      assert updates[..i + 1] == updates[..i] + [updates[i]];
    }
    assert updates[..|updates|] == updates;
    return true, path;
  }

  /** Takes the packet that session `i` is expected to send next, and acknowledges it, unless a command in it
      is for camera 0. */
  method Take(server: Server, i: nat, id: nat, updates: seq<Update>, now: Timespec)
    returns (ok: bool, ghost path: seq<Snapshot>)
    requires server.Valid() && i < |server.sessions| && server.connected > 0
    modifies server
    ensures server.Valid() && (ok <==> NoCamera !in updates)
    ensures ok ==> Taken(path, old(Now(server)), Now(server), i, id, updates, now)
    ensures ok ==> Noted(i, id, old(server.sessions), server.sessions)
    ensures ok ==>
      EndsWith(old(server.sent), server.sent, Ack(old(server.sessions[i].peer), old(server.sessions[i].wireId), id))
    ensures !ok ==>
      && 0 < |path| <= |updates| && PushPath(path, updates[..|path| - 1], now)
      && updates[|path| - 1].NoCamera? && path[0] == old(Now(server)) && path[|path| - 1] == Now(server)
  {
    hide Server.Inv, Server.Logged, SameClients, PushPath;
    ok, path := BroadcastUpdates(server, updates, now);
    if !ok {
      return;
    }
    assert updates[..|updates|] == updates;
    TakenFrom(i, id, old(server.sessions), server.sessions);
    server.SetLast(i, id);
    server.Reply(Ack(server.sessions[i].peer, server.sessions[i].wireId, id));
  }

  /** Session `i` has received one more packet, under the given id; nothing else is different. */
  ghost predicate Noted(i: nat, id: nat, sessions0: seq<Session>, sessions1: seq<Session>) {
    && i < |sessions0| == |sessions1|
    && Client(sessions1[i]) == Client(sessions0[i].(remoteIdLast := id))
    && forall j :: 0 <= j < |sessions0| && j != i ==> Client(sessions1[j]) == Client(sessions0[j])
  }

  ghost predicate EndsWith(sent0: seq<Datagram>, sent1: seq<Datagram>, answer: Datagram) {
    sent0 < sent1 && sent1[|sent1| - 1] == answer
  }

  lemma TakenFrom(i: nat, id: nat, sessions0: seq<Session>, sessions1: seq<Session>)
    requires SameClients(sessions0, sessions1) && i < |sessions0|
    ensures i < |sessions1| && sessions1[i].peer == sessions0[i].peer && sessions1[i].wireId == sessions0[i].wireId
    ensures Noted(i, id, sessions0, sessions1[i := sessions1[i].(remoteIdLast := id)])
  {
  }

  /** Takes a packet from session `i` if it is the next one, and answers it. Taking it fails if no
      session is connected, or if a command in it is for camera 0. */
  method ReceiveData(server: Server, i: nat, remoteId: Word, updates: seq<Update>, now: Timespec)
    returns (ok: bool)
    requires server.Valid() && i < |server.sessions|
    modifies server
    ensures server.Valid()
    ensures ok <==>
      !(old(IsNext(Now(server), i, remoteId)) && (old(server.connected) == 0 || NoCamera in updates))
    ensures ok ==> Answered(old(Now(server)), Now(server), i, remoteId, updates, now)
    ensures !ok && old(server.connected) == 0 ==> unchanged(server)
    ensures ok ==> EndsWith(old(server.sent), server.sent, Answer(old(server.sessions[i]), remoteId))
    ensures ok && old(IsNext(Now(server), i, remoteId)) ==> Noted(i, remoteId, old(server.sessions), server.sessions)
  {
    hide Server.Inv, Server.Logged, Noted, Taken, ProxyVerdict, Int16;
    var recved := Int16(remoteId);
    var expected := (server.sessions[i].remoteIdLast + 1) % REMOTE_IDS;
    VerdictCases(server.sessions[i].remoteIdLast, remoteId);
    if recved == expected {
      if server.connected == 0 {
        return false;
      }
      ghost var path;
      ok, path := Take(server, i, expected, updates, now);
      return;
    } else if (recved - expected) % REMOTE_IDS < (REMOTE_IDS - 1) / 2 {
      server.Reply(RetxRequest(server.sessions[i].peer, server.sessions[i].wireId, expected));
    } else {
      server.Reply(Ack(server.sessions[i].peer, server.sessions[i].wireId, server.sessions[i].remoteIdLast % 0x1_0000));
    }
    return true;
  }

  lemma LastWraps(last: nat)
    ensures (last % 0x1_0000 + 1) % REMOTE_IDS == (last + 1) % REMOTE_IDS
  {
  }

  lemma VerdictCases(last: nat, remoteId: Word)
    ensures (last % 0x1_0000 + 1) % REMOTE_IDS == (last + 1) % REMOTE_IDS
    ensures Int16(remoteId) == (last + 1) % REMOTE_IDS ==> remoteId == (last + 1) % REMOTE_IDS
    ensures ProxyVerdict(last % 0x1_0000, remoteId) ==
      if Int16(remoteId) == (last + 1) % REMOTE_IDS then Next
      else if (Int16(remoteId) - (last + 1) % REMOTE_IDS) % REMOTE_IDS < (REMOTE_IDS - 1) / 2 then Ahead
      else Behind
  {
    LastWraps(last);
  }

  lemma LookupLeadsToSession(server: Server, id: Word)
    requires server.Valid()
    ensures server.lookup.Length == ID_COUNT
    ensures server.lookup[id] != 0 ==> 1 <= server.lookup[id] <= |server.sessions|
    ensures id >= SERVER_ID && server.lookup[id] != 0 ==> server.sessions[server.lookup[id] - 1].id == id
    ensures id < SERVER_ID && server.lookup[id] != 0 ==> server.sessions[server.lookup[id] - 1].wireId == id
  {
    hide PacketsOk, QueueOk, SessionsOk, ChainKeysOk, Recorded;
    assert Registered(server.lookup[..], id) <==> server.lookup[id] != 0;
    if Registered(server.lookup[..], id) {
      var i := server.lookup[id] - 1;
      assert IdsOk(server.sessions[i], i, i < server.connected, server.lookup[..]);
    }
  }

  /** An opening request with a free client id adds one session, unless the server is full, shutting
      down, or about to hand out an id that is still in use. */
  method ReceiveOpening(server: Server, p: Packet, peer: Peer, now: Timespec) returns (ok: bool)
    requires server.Valid() && IsOpening(p)
    modifies server, server.lookup
    ensures server.Valid()
    ensures ok <==> !PacketTrips(old(Now(server)), p, peer)
    ensures if ok then OpeningReceived(old(Now(server)), Now(server), p, peer, now)
            else unchanged(server) && unchanged(server.lookup)
  {
    hide Server.Inv, Server.Logged;
    LookupLeadsToSession(server, p.sessionId);
    if p.syn {
      if p.len != SYN_LEN || p.opcode != OpenOp {
        return true;
      }
      if server.lookup[p.sessionId] == 0 && server.HasRoom() && server.lookup[server.NextId()] != 0 {
        return false;
      }
      OpenSession(server, p.sessionId, peer, now);
    } else if p.ack {
      Connect(server, p.sessionId, peer, now);
    }
    return true;
  }

  method OpenSession(server: Server, clientId: nat, peer: Peer, now: Timespec)
    requires server.Valid() && clientId < SERVER_ID && server.lookup.Length == ID_COUNT
    requires server.lookup[clientId] == 0 && server.HasRoom() ==> server.lookup[server.NextId()] == 0
    requires server.lookup[clientId] != 0 ==> 1 <= server.lookup[clientId] <= |server.sessions|
    modifies server, server.lookup
    ensures server.Valid() && OpenRequested(old(Now(server)), Now(server), clientId, peer, now)
  {
    hide Server.Inv, Server.Logged, Opened, Snapshot.Sound;
    ValidIsSound(server);
    SoundLimit(Now(server));
    server.Create(clientId, peer, now);
  }

  method Connect(server: Server, clientId: nat, peer: Peer, now: Timespec)
    requires server.Valid() && clientId < SERVER_ID && server.lookup.Length == ID_COUNT
    modifies server, server.lookup
    ensures server.Valid()
    ensures if old(Now(server)).Opens(clientId, peer) then HandshakeDone(old(Now(server)), Now(server), clientId, now)
            else unchanged(server) && unchanged(server.lookup)
  {
    hide Server.Inv, Server.Logged, SessionLemmas.Completed, ChunkDatagrams;
    server.LengthOfTable();
    var done := server.Connect(clientId, peer, now);
    server.LengthOfTable();
  }

  /** A packet of an established session: its acknowledgement is processed first, then a closing or
      closed opcode, then its data. A packet with an opcode carries no data. In between the server was
      in state `u`. */
  method ReceiveInSession(server: Server, i: nat, p: Packet, now: Timespec) returns (ok: bool, ghost u: Snapshot)
    requires server.Valid() && i < |server.sessions| && !(p.syn && p.ackreq)
    modifies server, server.lookup
    ensures server.Valid() && old(server.sessions[i].id) in old(server.chains)
    ensures ok <==>
      !(p.ackreq && old(IsNext(Now(server), i, p.remoteId)) && (old(server.connected) == 0 || NoCamera in p.updates))
    ensures ok ==> InSession(old(Now(server)), u, Now(server), i, p, now)
    ensures p.syn && p.opcode == ClosingOp ==>
      server.chains.Keys == old(server.chains.Keys) - {old(server.sessions[i].id)}
    ensures p.ackreq && ok ==> EndsWith(old(server.sent), server.sent, Answer(old(server.sessions[i]), p.remoteId))
  {
    hide Server.Inv, Server.Logged, AckedChains, Vacated, VacatedTwice, Closing, Closed, Answered, ProxyVerdict;
    hide Snapshot.Sound;
    ok := true;
    server.HasChain(i);
    if p.ack {
      Acknowledge(server, i, p.ackId);
    }
    u := Now(server);
    ValidIsSound(server);
    if p.syn {
      if p.opcode == ClosingOp {
        Close(server, i);
      } else if p.opcode == ClosedOp {
        CloseAnswered(server, i);
      }
    }
    if p.ackreq {
      ok := ReceiveData(server, i, p.remoteId, p.updates, now);
    }
  }

  method Acknowledge(server: Server, i: nat, ackId: Word)
    requires server.Valid() && i < |server.sessions|
    modifies server
    ensures server.Valid() && Acked(old(Now(server)), Now(server), i, ackId)
    ensures server.chains.Keys == old(server.chains.Keys)
  {
    hide Server.Inv, Server.Logged, Kept, Framed, AckedChains;
    server.HasChain(i);
    server.Acknowledge(i, ackId);
    AckedKeys(old(server.chains), old(server.sessions[i]), i < server.connected, ackId);
  }

  lemma AckedKeys(chains: map<nat, seq<Loc>>, s: Session, connected: bool, ackId: nat)
    requires s.id in chains
    ensures AckedChains(chains, s, connected, ackId).Keys == chains.Keys
  {
  }

  method Close(server: Server, i: nat)
    requires server.Valid() && i < |server.sessions|
    modifies server, server.lookup
    ensures server.Valid() && Closing(old(Now(server)), Now(server), i)
    ensures server.chains.Keys == old(server.chains.Keys) - {old(server.sessions[i].id)}
  {
    hide Server.Inv, Server.Logged, Kept, Framed, Vacated, VacatedTwice;
    server.LengthOfTable();
    server.Closing(i);
  }

  method CloseAnswered(server: Server, i: nat)
    requires server.Valid() && i < |server.sessions|
    modifies server, server.lookup
    ensures server.Valid() && Closed(old(Now(server)), Now(server), i)
  {
    hide Server.Inv, Server.Logged, Kept, Framed, Vacated, VacatedTwice;
    server.LengthOfTable();
    server.Closed(i);
  }

  /** Dispatches a received packet. The result says that no assertion failed on the way. */
  method Receive(server: Server, p: Packet, peer: Peer, now: Timespec) returns (ok: bool)
    requires server.Valid() && !(p.syn && p.ackreq)
    modifies server, server.lookup
    ensures server.Valid()
    ensures ok <==> !PacketTrips(old(Now(server)), p, peer)
    ensures ok ==> PacketReceived(old(Now(server)), Now(server), p, peer, now)
    ensures !IsOpening(p) && !old(FromSession(Now(server), p, peer)) ==>
      ok && unchanged(server) && unchanged(server.lookup)
    ensures old(FromSession(Now(server), p, peer)) && p.syn && p.opcode == ClosingOp ==>
      ok && p.sessionId !in server.chains
    ensures old(FromSession(Now(server), p, peer)) && p.ackreq && ok ==>
      EndsWith(old(server.sent), server.sent, Answer(old(Now(server).SessionOf(p.sessionId)), p.remoteId))
  {
    hide Server.Inv, Server.Logged, OpeningReceived, InSession, ProxyVerdict;
    LookupLeadsToSession(server, p.sessionId);
    if p.len < HEADER {
      return true;
    }
    if p.sessionId < SERVER_ID {
      ok := ReceiveOpening(server, p, peer, now);
      return;
    }
    var i := server.LookupGet(p.sessionId);
    if i == -1 || server.sessions[i].peer != peer {
      return true;
    }
    ghost var u;
    ok, u := ReceiveInSession(server, i, p, now);
  }
}
