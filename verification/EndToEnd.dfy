/** Both ends together: the proxy with all its sessions, one of its clients, and the network between them. */
module EndToEnd {
  import opened Basics
  import opened IndexSet
  import opened ProxyState
  import opened ProxyServer
  import opened JoinLemmas
  import opened SessionLemmas
  import opened TableLemmas
  import opened History
  import opened Effects
  import opened SoundStates
  import opened Sequence
  import Runs
  import C = Client
  import D = Delivery

  /** The client's end: its connection, the payloads it has processed and the answers it has given. */
  datatype End = End(client: C.State, delivered: seq<Payload>, acks: seq<D.Answer>, requests: seq<D.Answer>)

  datatype World = World(proxy: Snapshot, end: End)

  ghost predicate Viewable(s: Snapshot, o: nat) {
    o < ID_COUNT && o in s.history && o in s.chains && |s.chains[o]| <= |s.history[o]|
  }

  /** Session `o` as one session of the protocol: what the proxy has pushed to it is its record, and what
      it has not released is its chain. */
  ghost function View(s: Snapshot, o: nat, e: End): D.Session
    requires Viewable(s, o)
  {
    D.Session(o, s.history[o], |s.history[o]| - |s.chains[o]|, e.client, e.delivered, e.acks, e.requests)
  }

  /** To session `o` the change from `s` to `t` is the given event. */
  ghost predicate StepsTo(s: Snapshot, t: Snapshot, o: nat, e: End, event: D.Event) {
    && Viewable(s, o) && Viewable(t, o) && D.Possible(View(s, o, e), event)
    && View(t, o, e) == D.Step(View(s, o, e), event, false)
  }

  /** To session `o` nothing has happened. */
  ghost predicate SameView(s: Snapshot, t: Snapshot, o: nat, e: End) {
    Viewable(s, o) && Viewable(t, o) && View(t, o, e) == View(s, o, e)
  }

  ghost predicate Here(s: Snapshot, o: nat) {
    IsConnected(s.sessions, s.connected, o)
  }

  /** The record of a connected session. */
  lemma RecordOf(s: Snapshot, o: nat) returns (i: nat)
    requires s.Sound() && Here(s, o)
    ensures i < s.connected && i < |s.sessions| && s.sessions[i].id == o && Viewable(s, o)
    ensures s.sessions[i].remoteId == |s.history[o]| % REMOTE_IDS
    ensures forall x :: 0 <= x < |s.chains[o]| ==>
      s.chains[o][x].packet in s.states && !s.states[s.chains[o][x].packet].closing
    ensures DistinctIds(s.sessions)
  {
    hide QueueOk, PacketsOk, ChainKeysOk, SentLogged, TableOk, Linked, Consecutive, DistinctIds;
    i :| 0 <= i < s.connected && i < |s.sessions| && s.sessions[i].id == o;
    assert SessionOk(s.states, s.bodies, s.chains, {}, s.sessions[i], true);
    TableDistinct(s.sessions, s.connected, s.lookup);
    RecordIds(s.sessions, s.connected, s.lookup, i);
    if s.chains[o] != [] {
      assert Carries(o, |s.chains[o]|, 0, s.states[s.chains[o][0].packet], s.history);
    }
  }

  // ---------------------------------------------------------------- what the proxy does, as events of the session

  /** Pushing a payload to the connected sessions is a push in each of them. */
  lemma PushIsStep(s: Snapshot, t: Snapshot, payload: Payload, stamp: Timespec, o: nat, e: End)
    requires s.Sound() && t.Sound() && Pushes(s, t, payload, stamp) && Here(s, o)
    ensures Here(t, o) && StepsTo(s, t, o, e, D.Push(payload))
  {
    hide Snapshot.Sound, Reached, Pushed, PushDatagrams;
    var i := RecordOf(s, o);
    var p := t.queue[|t.queue| - 1];
    ReachedKeys(s.connected, p, s.sessions, s.chains, t.sessions, t.chains);
    ReachedChain(s.connected, p, s.sessions, s.chains, t.sessions, t.chains, i);
    ReachedSession(s.connected, p, s.sessions, s.chains, t.sessions, t.chains, i);
    SoundSessions(s);
    PushedAt(s.history, s.sessions, s.connected, payload, i);
    var j := RecordOf(t, o);
  }

  lemma SoundSessions(s: Snapshot)
    requires s.Sound()
    ensures SessionsLogged(s.sessions, s.connected, s.history)
  {
    hide QueueOk, PacketsOk, TableOk, SessionsOk, ChainKeysOk;
  }

  /** An acknowledgement from the session is the arrival of one of the client's answers. */
  lemma AckIsStep(s: Snapshot, t: Snapshot, i: nat, ackId: nat, o: nat, e: End, k: nat)
    requires i < |s.sessions| && s.sessions[i].id == o && k < |e.acks| && e.acks[k].id == ackId
    requires Here(s, o) && Here(t, o) && Acked(s, t, i, ackId) && s.Sound() && t.Sound()
    ensures StepsTo(s, t, o, e, D.AckArrives(k))
  {
    hide Snapshot.Sound, Kept, Framed;
    var j := RecordOf(s, o);
    var j' := RecordOf(t, o);
    SameRecord(s.sessions, i, j);
  }

  lemma SameRecord(sessions: seq<Session>, i: nat, j: nat)
    requires DistinctIds(sessions) && i < |sessions| && j < |sessions| && sessions[i].id == sessions[j].id
    ensures i == j
  {
  }

  lemma DifferentRecords(sessions: seq<Session>, i: nat, j: nat)
    requires DistinctIds(sessions) && i < |sessions| && j < |sessions| && i != j
    ensures sessions[i].id != sessions[j].id
  {
  }

  /** What does not concern the session leaves it alone: acknowledgements and farewells of others ... */
  lemma AckOfOthers(s: Snapshot, t: Snapshot, i: nat, ackId: nat, o: nat, e: End)
    requires s.Sound() && t.Sound() && Acked(s, t, i, ackId) && Here(s, o) && s.sessions[i].id != o
    ensures Here(t, o) && SameView(s, t, o, e)
  {
    hide Snapshot.Sound, Kept, Framed;
    var j := RecordOf(s, o);
    assert t.sessions[j].id == o;
    var j' := RecordOf(t, o);
  }

  lemma LeavingOfOthers(s: Snapshot, t: Snapshot, i: nat, o: nat, e: End)
    requires s.Sound() && t.Sound() && Left(s, t, i) && Here(s, o) && Here(t, o)
    ensures SameView(s, t, o, e)
  {
    hide Snapshot.Sound, Kept, Framed, Vacated, VacatedTwice;
    var j := RecordOf(s, o);
    var j' := RecordOf(t, o);
  }

  /** ... and the timer: whoever is still connected after it has fired was connected before, and owes what
      it owed. */
  lemma FiringIsSilent(s: Snapshot, t: Snapshot, now: Timespec, o: nat, e: End)
    requires s.Sound() && t.Sound() && Firing(s, t, now) && Here(t, o)
    ensures Here(s, o) && SameView(s, t, o, e)
  {
    hide Snapshot.Sound, Reduced, ClosingsSent, OwnersBelow, FirstForOwners, IndexOk, Transmissions;
    var j := RecordOf(t, o);
    assert GoesBack(t.sessions[j], true, s.sessions, s.connected);
    var i := RecordOf(s, o);
    var p := s.queue[0];
    var b := s.bodies[p];
    if s.states[p].resends == 0 && !s.states[p].closing {
      if o in OwnersBelow(b, b.remaining) {
        ReducedToPacket(b, p, s.chains, t.chains, o);
      } else {
        NotReduced(s.chains, OwnersBelow(b, b.remaining), t.chains, o);
      }
    }
  }

  /** Whatever has been sent to the session since it was connected reads, to the client, as one of its
      packets. */
  lemma SentIsPacket(s: Snapshot, o: nat, k: nat, e: End) returns (n: nat)
    requires s.Sound() && Here(s, o) && o in s.since && s.since[o] <= k < |s.sent|
    requires s.sent[k].Data? && s.sent[k].sessionId == o
    ensures Viewable(s, o) && D.Possible(View(s, o, e), D.Arrives(n))
    ensures s.sent[k].remoteId < 0x1_0000
    ensures D.ReadAs(o, s.sent[k].remoteId, s.sent[k].payload) == D.DataPacket(View(s, o, e), n)
    ensures s.sent[k].payload == s.history[o][n - 1]
  {
    hide QueueOk, PacketsOk, ChainKeysOk, SessionsOk, TableOk, ChainsLogged;
    var i := RecordOf(s, o);
    assert GenuineFrom(s.sent, s.since[o], s.sessions[i], s.history);
    assert Genuine(s.sent[k], s.sessions[i], s.history);
    n :| IsPacket(s.sent[k], s.sessions[i], s.history[o], n);
    assert Ordinary(s.history[o][n - 1]);
  }

  // ---------------------------------------------------------------- whole runs

  /** The client has processed a prefix of what was pushed to session `o`, and everything it has said is
      right. */
  ghost predicate InStep(s: Snapshot, o: nat, e: End) {
    Viewable(s, o) && D.InStep(View(s, o, e))
  }

  /** Acknowledgements that claim to come from the client do: they carry one of its answers. */
  ghost predicate AckGenuine(o: nat, id: nat, p: Packet, e: End) {
    p.ack && id == o ==> exists k :: 0 <= k < |e.acks| && e.acks[k].id == p.ackId
  }

  lemma {:induction false} PushesKeepStep(path: seq<Snapshot>, updates: seq<Update>, stamp: Timespec, o: nat,
                                          e: End)
    requires PushPath(path, updates, stamp) && Here(path[0], o) && InStep(path[0], o, e)
    ensures Here(path[|updates|], o) && InStep(path[|updates|], o, e)
    decreases |updates|
  {
    hide Pushes, Snapshot.Sound, Here, D.InStep, Viewable;
    if updates != [] {
      var n := |updates| - 1;
      PushesKeepStep(path[..|updates|], updates[..n], stamp, o, e);
      PushIsStep(path[n], path[n + 1], updates[n].payload, stamp, o, e);
      D.PushKeepsOrder(View(path[n], o, e), updates[n].payload, false);
    }
  }

  lemma {:induction false} FiringsKeepStep(path: seq<Snapshot>, now: Timespec, o: nat, e: End)
    requires FiringPath(path, now) && Here(path[|path| - 1], o)
    ensures Here(path[0], o) && SameView(path[0], path[|path| - 1], o, e)
    decreases |path|
  {
    hide Firing, Snapshot.Sound, Here, HeadDue;
    var last := |path| - 1;
    if last == 0 {
      assert path[0].Sound();
      var i := RecordOf(path[0], o);
    } else {
      assert Firing(path[last - 1], path[last], now);
      FiringIsSilent(path[last - 1], path[last], now, o, e);
      FiringsKeepStep(path[..last], now, o, e);
    }
  }

  lemma AckKeepsStep(s: Snapshot, t: Snapshot, i: nat, p: Packet, o: nat, e: End)
    requires i < |s.sessions| && AckGenuine(o, s.sessions[i].id, p, e) && InStep(s, o, e)
    requires if p.ack then Acked(s, t, i, p.ackId) else t == s
    requires Here(s, o) && s.Sound() && t.Sound()
    ensures Here(t, o) && InStep(t, o, e)
  {
    hide Snapshot.Sound, D.InStep, AckedChains, Kept, Framed;
    if p.ack {
      AckedHere(s, t, i, p.ackId, o);
      if s.sessions[i].id == o {
        var k :| 0 <= k < |e.acks| && e.acks[k].id == p.ackId;
        AckIsStep(s, t, i, p.ackId, o, e, k);
        D.AckKeepsOrder(View(s, o, e), k, false);
      } else {
        AckOfOthers(s, t, i, p.ackId, o, e);
      }
    }
  }

  lemma AckedHere(s: Snapshot, t: Snapshot, i: nat, ackId: nat, o: nat)
    requires Acked(s, t, i, ackId) && Here(s, o)
    ensures Here(t, o)
  {
    var j :| 0 <= j < s.connected && j < |s.sessions| && s.sessions[j].id == o;
    assert t.sessions[j].id == o;
  }

  lemma AnswerKeepsStep(s: Snapshot, t: Snapshot, i: nat, remoteId: Word, updates: seq<Update>, now: Timespec,
                        o: nat, e: End)
    requires Answered(s, t, i, remoteId, updates, now) && Here(s, o) && InStep(s, o, e)
    ensures InStep(t, o, e)
  {
    hide D.InStep, IsNext, Answer, Taken, Here;
    if IsNext(s, i, remoteId) {
      var path :| Taken(path, s, t, i, remoteId, updates, now);
      TakingKeepsStep(path, s, t, i, remoteId, updates, now, o, e);
    }
  }

  lemma TakingKeepsStep(path: seq<Snapshot>, s: Snapshot, t: Snapshot, i: nat, id: nat, updates: seq<Update>,
                        now: Timespec, o: nat, e: End)
    requires Taken(path, s, t, i, id, updates, now) && Here(s, o) && InStep(s, o, e)
    ensures InStep(t, o, e)
  {
    hide D.InStep, Here, PushPath;
    assert |path| == |updates| + 1 by { LengthOfPushes(path, updates, now); }
    PushesKeepStep(path, updates, now, o, e);
  }

  lemma PacketKeepsStep(s: Snapshot, t: Snapshot, i: nat, p: Packet, now: Timespec, o: nat, e: End)
    requires SessionReceived(s, t, i, p, now) && i < |s.sessions| && AckGenuine(o, s.sessions[i].id, p, e)
    requires s.Sound() && t.Sound() && Here(s, o) && Here(t, o) && InStep(s, o, e)
    ensures InStep(t, o, e)
  {
    hide Snapshot.Sound, D.InStep, Acked, Left, Answered, Here, AckGenuine, View, Viewable;
    var u :| InSession(s, u, t, i, p, now);
    AckKeepsStep(s, u, i, p, o, e);
    if p.syn && p.opcode == ClosingOp {
      LeavingOfOthers(u, t, i, o, e);
    } else if p.syn && p.opcode == ClosedOp {
      if u.IsClosing(i) { LeavingOfOthers(u, t, i, o, e); }
    } else if p.ackreq {
      AnswerKeepsStep(u, t, i, p.remoteId, p.updates, now, o, e);
    }
  }

  lemma AcceptedKeepsStep(s: Snapshot, t: Snapshot, clientId: nat, peer: Peer, now: Timespec, o: nat, e: End)
    requires Accepted(s, t, clientId, peer, now) && s.Sound() && Here(s, o) && InStep(s, o, e)
    ensures InStep(t, o, e)
  {
    hide Snapshot.Sound, D.InStep, NewPacket;
    var i := RecordOf(s, o);
    assert t.chains[o] == s.chains[o] && t.history[o] == s.history[o];
  }

  lemma RequestKeepsStep(s: Snapshot, t: Snapshot, clientId: nat, peer: Peer, now: Timespec, o: nat, e: End)
    requires OpenRequested(s, t, clientId, peer, now) && s.Sound() && Here(s, o) && InStep(s, o, e)
    ensures InStep(t, o, e)
  {
    hide Snapshot.Sound, D.InStep, Accepted, Here;
    if s.Unused(clientId) && s.HasRoom() { AcceptedKeepsStep(s, t, clientId, peer, now, o, e); }
  }

  lemma HandshakeKeepsStep(s: Snapshot, t: Snapshot, clientId: nat, now: Timespec, o: nat, e: End)
    requires HandshakeDone(s, t, clientId, now) && s.Sound() && t.Sound() && Here(s, o) && Here(t, o) && InStep(s, o, e)
    ensures InStep(t, o, e)
  {
    hide Snapshot.Sound, D.InStep, Swapped, Dumped, Kept, Addresses, ChunkDatagrams, WithChunks, OthersKept;
    var i := RecordOf(s, o);
    DifferentRecords(s.sessions, s.lookup[clientId] - 1, i);
  }

  lemma OpeningKeepsStep(s: Snapshot, t: Snapshot, p: Packet, peer: Peer, now: Timespec, o: nat, e: End)
    requires OpeningReceived(s, t, p, peer, now) && s.Sound() && t.Sound() && Here(s, o) && Here(t, o)
    requires InStep(s, o, e)
    ensures InStep(t, o, e)
  {
    hide Snapshot.Sound, D.InStep, OpenRequested, HandshakeDone;
    if IsOpenRequest(p) {
      RequestKeepsStep(s, t, p.sessionId, peer, now, o, e);
    } else if !p.syn && p.ack && s.Opens(p.sessionId, peer) {
      HandshakeKeepsStep(s, t, p.sessionId, now, o, e);
    }
  }

  lemma SoundAtAnyTime(s: Snapshot, stamp: Timespec)
    ensures s.Sound() <==> s.(pingStamp := stamp).Sound()
  {
    hide QueueOk, PacketsOk, ChainKeysOk, SessionsOk, TableOk, Recorded;
  }

  lemma TimerKeepsStep(s: Snapshot, t: Snapshot, now: Timespec, later: Timespec, o: nat, e: End)
    requires s.Sound() && t.Sound() && Here(s, o) && Here(t, o) && InStep(s, o, e)
    requires exists path :: TimerPath(path, s, t, now, later)
    ensures InStep(t, o, e)
  {
    hide Snapshot.Sound, D.InStep, Pushes, HeadDue;
    var path: seq<Snapshot> :| TimerPath(path, s, t, now, later);
    FiringsKeepStep(path, now, o, e);
    if PingDue(s, now) {
      var u := path[0];
      SoundAtAnyTime(u, s.pingStamp);
      PushIsStep(s, u.(pingStamp := s.pingStamp), Ping, later, o, e);
      D.PushKeepsOrder(View(s, o, e), Ping, false);
    }
  }

  /** Every event of the proxy that leaves the session connected keeps its client in step. */
  lemma EventKeepsStep(s: Snapshot, t: Snapshot, event: Event, o: nat, e: End)
    requires s.Sound() && t.Sound() && Here(s, o) && Here(t, o) && InStep(s, o, e) && Effect(event, s, t)
    requires event.Received? ==> AckGenuine(o, event.packet.sessionId, event.packet, e)
    ensures InStep(t, o, e)
  {
    hide Snapshot.Sound, D.InStep, OpeningReceived, SessionReceived, TimerPath;
    match event
    case Received(p, peer, now) =>
      if IsOpening(p) {
        OpeningKeepsStep(s, t, p, peer, now, o, e);
      } else if FromSession(s, p, peer) {
        KnownRecord(s, p.sessionId);
        PacketKeepsStep(s, t, s.lookup[p.sessionId] - 1, p, now, o, e);
      }
    case TimerRan(now, later) => TimerKeepsStep(s, t, now, later, o, e);
    case _ =>
  }

  /** What the client does with a packet: it answers it, and processes its payload if it is the next one. */
  function Receives(e: End, p: C.Incoming, payload: Payload): End {
    var (client, status) := C.Parsed(e.client, p);
    var delivered := if status.Write? then e.delivered + [payload] else e.delivered;
    if client.buffer.RetxReq? then End(client, delivered, e.acks, e.requests + [D.Answer(client.retx.id, |delivered|)])
    else End(client, delivered, e.acks + [D.Answer(client.ack.id, |delivered|)], e.requests)
  }

  /** The network hands over a copy of the datagram at position `k` of what the proxy has sent since the
      session was connected. It was packet `n`, and the client is within a round of that. */
  ghost predicate CopyArrives(o: nat, w: World, w': World, k: nat, n: nat) {
    && o in w.proxy.since && w.proxy.since[o] <= k < |w.proxy.sent|
    && var d := w.proxy.sent[k];
    && d.Data? && d.sessionId == o < 0x1_0000 && d.remoteId < 0x1_0000
    && o in w.proxy.history && 1 <= n <= |w.proxy.history[o]|
    && d.remoteId == n % REMOTE_IDS && d.payload == w.proxy.history[o][n - 1]
    && -REMOTE_IDS < Lead(|w.end.delivered|, n) < REMOTE_IDS
    && w' == World(w.proxy, Receives(w.end, D.ReadAs(o, d.remoteId, d.payload), d.payload))
  }

  /** One thing that happens: an event of the proxy, with genuine acknowledgements from the client; a copy of
      a packet that arrives in time; or an accept response that does. */
  ghost predicate WorldStep(o: nat, w: World, w': World) {
    || (exists event ::
          && Effect(event, w.proxy, w'.proxy) && w'.end == w.end
          && (event.Received? ==> AckGenuine(o, event.packet.sessionId, event.packet, w.end)))
    || ReachesClient(o, w, w')
  }

  ghost predicate ReachesClient(o: nat, w: World, w': World) {
    || (exists k, n :: CopyArrives(o, w, w', k, n))
    || (w' == World(w.proxy, w.end.(client := C.Parsed(w.end.client, D.ACCEPT).0))
        && (w.end.client.buffer.Ack? || |w.end.delivered| % REMOTE_IDS == 0))
  }

  /** To the session the arrival of a copy is the arrival of a packet. */
  lemma CopyIsStep(o: nat, w: World, w': World, k: nat, n: nat)
    requires w.proxy.Sound() && Here(w.proxy, o) && CopyArrives(o, w, w', k, n)
    ensures Viewable(w.proxy, o) && D.Possible(View(w.proxy, o, w.end), D.Arrives(n))
    ensures View(w'.proxy, o, w'.end) == D.Step(View(w.proxy, o, w.end), D.Arrives(n), false)
  {
    hide Snapshot.Sound, C.Parsed;
    var i := RecordOf(w.proxy, o);
    OrdinaryRecord(w.proxy, o, n);
  }

  lemma OrdinaryRecord(s: Snapshot, o: nat, n: nat)
    requires s.Sound() && o in s.history && 1 <= n <= |s.history[o]|
    ensures Ordinary(s.history[o][n - 1])
  {
    hide QueueOk, PacketsOk, ChainKeysOk, SessionsOk, TableOk, ChainsLogged, SentLogged;
  }

  lemma WorldKeepsStep(o: nat, w: World, w': World)
    requires w.proxy.Sound() && w'.proxy.Sound() && Here(w.proxy, o) && Here(w'.proxy, o)
    requires InStep(w.proxy, o, w.end) && WorldStep(o, w, w')
    ensures InStep(w'.proxy, o, w'.end)
  {
    hide Snapshot.Sound, D.InStep, Effect, Here, C.Parsed;
    if event :| Effect(event, w.proxy, w'.proxy) && w'.end == w.end
                && (event.Received? ==> AckGenuine(o, event.packet.sessionId, event.packet, w.end)) {
      EventKeepsStep(w.proxy, w'.proxy, event, o, w.end);
    } else if k, n :| CopyArrives(o, w, w', k, n) {
      CopyIsStep(o, w, w', k, n);
      D.ArrivalKeepsOrder(View(w.proxy, o, w.end), n, false);
    } else {
      D.AcceptKeepsOrderExactlyWhen(View(w.proxy, o, w.end), false);
    }
  }

  /** A run during which session `o` is connected. */
  ghost predicate IsRun(o: nat, run: seq<World>) {
    && run != [] && (forall k :: 0 <= k < |run| ==> run[k].proxy.Sound() && Here(run[k].proxy, o))
    && forall k :: 0 <= k < |run| - 1 ==> WorldStep(o, run[k], run[k + 1])
  }

  /** Whatever the proxy does for all its sessions and whatever the network does in time: what the client
      has processed is a prefix of what the proxy has pushed to it. */
  lemma {:induction false} DeliversPushed(o: nat, run: seq<World>)
    requires IsRun(o, run) && InStep(run[0].proxy, o, run[0].end)
    ensures var w := run[|run| - 1];
      InStep(w.proxy, o, w.end) && w.end.delivered <= w.proxy.history[o]
    decreases |run|
  {
    hide Snapshot.Sound, WorldStep, Here;
    if |run| > 1 {
      var last := |run| - 1;
      DeliversPushed(o, run[..last]);
      assert WorldStep(o, run[last - 1], run[last]);
      WorldKeepsStep(o, run[last - 1], run[last]);
    }
  }

  /** The same for the server itself: `at[k]` is the place of world `k` in a trace of events that it has handled. The
      next world comes about by the next event, with a genuine acknowledgement if it is one, or by something that
      reaches the client. */
  ghost predicate Follows(o: nat, events: seq<Event>, trace: seq<Snapshot>, run: seq<World>, at: seq<nat>) {
    && |trace| <= |events| + 1 && |at| == |run| > 0
    && (forall k :: 0 <= k < |run| ==> at[k] < |trace| && run[k].proxy == trace[at[k]] && Here(run[k].proxy, o))
    && forall k :: 0 <= k < |run| - 1 ==> Next(o, events, trace, run[k], run[k + 1], at[k], at[k + 1])
  }

  ghost predicate Next(o: nat, events: seq<Event>, trace: seq<Snapshot>, w: World, w': World, i: nat, j: nat) {
    || (j == i + 1 && j < |trace| && i < |events| && w'.end == w.end
        && (events[i].Received? ==> AckGenuine(o, events[i].packet.sessionId, events[i].packet, w.end)))
    || (j == i && ReachesClient(o, w, w'))
  }

  lemma NextIsWorldStep(o: nat, events: seq<Event>, trace: seq<Snapshot>, w: World, w': World, i: nat, j: nat)
    requires Next(o, events, trace, w, w', i, j) && i < |trace| && j < |trace| && |trace| <= |events| + 1
    requires w.proxy == trace[i] && w'.proxy == trace[j] && (j == i + 1 ==> Effect(events[i], trace[i], trace[j]))
    ensures WorldStep(o, w, w')
  {
    hide Effect, AckGenuine, ReachesClient;
  }

  /** Over every run that the server has made, whatever it was handed. */
  lemma DeliversOverTrace(o: nat, events: seq<Event>, handled: nat, trace: seq<Snapshot>, run: seq<World>, at: seq<nat>)
    requires Runs.Traced(events, handled, trace) && Follows(o, events, trace, run, at)
    requires InStep(run[0].proxy, o, run[0].end)
    ensures var w := run[|run| - 1]; InStep(w.proxy, o, w.end) && w.end.delivered <= w.proxy.history[o]
  {
    hide Snapshot.Sound, Effect, Trips, Here, Next, WorldStep;
    forall k | 0 <= k < |run| - 1
      ensures WorldStep(o, run[k], run[k + 1])
    {
      if at[k + 1] == at[k] + 1 { assert Effect(events[at[k]], trace[at[k]], trace[at[k] + 1]); }
      NextIsWorldStep(o, events, trace, run[k], run[k + 1], at[k], at[k + 1]);
    }
    DeliversPushed(o, run);
  }

  /** A client whose connection has just been accepted. */
  predicate Fresh(e: End) {
    e.client.buffer.Ack? && e.client.last == 0 && e.delivered == [] && e.acks == [] && e.requests == []
  }

  /** A run starts with the opening handshake: the cached state has been pushed, and nothing is released. */
  lemma StartsInStep(s: Snapshot, t: Snapshot, clientId: nat, now: Timespec, e: End)
    requires s.Sound() && t.Sound() && HandshakeDone(s, t, clientId, now) && Fresh(e)
    ensures var o := t.sessions[s.connected].id; Here(t, o) && InStep(t, o, e) && t.history[o] == s.cache
  {
    hide Snapshot.Sound, Swapped, Dumped, Kept, Addresses, ChunkDatagrams;
    var o := t.sessions[s.connected].id;
    assert Here(t, o);
    var i := RecordOf(t, o);
  }
}
