/** What one event does to the proxy, as a relation between the states before and after it. */
module Effects {
  import opened Basics
  import opened IndexSet
  import opened ProxyState
  import opened ProxyServer
  import opened ChainLemmas
  import opened JoinLemmas
  import opened SessionLemmas
  import opened TableLemmas
  import opened Draining
  import opened History
  import opened Sequence

  /** Everything a server consists of, as one value. */
  datatype Snapshot = Snapshot(
    next: map<Addr, Addr>, prev: map<Addr, Addr>, head: Addr, tail: Addr, queue: seq<Addr>,
    states: map<Addr, State>, bodies: map<Addr, Body>, chains: map<nat, seq<Loc>>, births: map<Addr, nat>, clock: nat,
    sessions: seq<Session>, connected: nat, lookup: seq<int>, sessionIdLast: nat, shutting: bool, pingStamp: Timespec,
    sent: seq<Datagram>, history: map<nat, seq<Payload>>, since: map<nat, nat>,
    limit: nat, delay: nat, interval: nat, cache: seq<CommandList>)
  {
    /** The invariant and the record of what was pushed. */
    ghost predicate Sound() {
      && QueueOk(next, prev, head, tail, queue)
      && PacketsOk(states, bodies, queue, chains, births, clock, NULL, {})
      && TableOk(sessions, connected, lookup)
      && SessionsOk(states, bodies, chains, {}, sessions, connected) && ChainKeysOk(sessions, chains)
      && |sessions| <= limit < 0x7fff && sessionIdLast < SERVER_ID
      && 0 < delay < interval < ID_COUNT && 1 <= |cache| < 0x100
      && Recorded(states, chains, sessions, connected, sent, since, history)
    }

    function NextId(): nat {
      SERVER_ID + (sessionIdLast + 1) % SERVER_ID
    }

    predicate HasRoom() {
      |sessions| != limit && !shutting
    }

    /** Which record an id leads to, if any. */
    predicate Known(id: nat) {
      id < |lookup| && 1 <= lookup[id] <= |sessions|
    }

    function SessionOf(id: nat): Session
      requires Known(id)
    {
      sessions[lookup[id] - 1]
    }

    predicate Unused(id: nat) {
      id < |lookup| && lookup[id] == 0
    }

    /** A session is waiting for the client to complete its opening handshake. */
    predicate Opens(id: nat, peer: Peer) {
      Known(id) && SessionOf(id).peer == peer
    }

    /** Session `i` has been sent a closing request. */
    predicate IsClosing(i: nat)
      requires i < |sessions|
    {
      sessions[i].head.packet != NULL && sessions[i].head.packet in states && states[sessions[i].head.packet].closing
    }
  }

  ghost function Now(server: Server): Snapshot
    reads server, server.lookup
  {
    Snapshot(server.next, server.prev, server.head, server.tail, server.queue, server.states, server.bodies,
             server.chains,
             server.births, server.clock, server.sessions, server.connected, server.lookup[..], server.sessionIdLast,
             server.shutting, server.pingStamp, server.sent, server.history, server.since,
             server.sessionsLimit, server.retransmitDelay, server.pingInterval, server.cache)
  }

  /** A server that has just been set up. */
  ghost function Initial(limit: nat, delay: nat, interval: nat, chunks: seq<CommandList>): Snapshot {
    Snapshot(map[], map[], NULL, NULL, [], map[], map[], map[], map[], 0, [], 0, seq(ID_COUNT, _ => 0), 0, false,
             Timespec(0, 0), [], map[], map[], limit, delay, interval, chunks)
  }

  /** Between two events every server is sound. */
  lemma ValidIsSound(server: Server)
    ensures server.Valid() <==> Now(server).Sound()
  {
    hide QueueOk, PacketsOk, TableOk, SessionsOk, ChainKeysOk, Recorded;
  }

  // ---------------------------------------------------------------- the timer

  /** The packet at the head of the queue has to be sent again. */
  ghost predicate HeadDue(s: Snapshot, now: Timespec) {
    s.queue != [] && s.queue[0] in s.states && Remaining(now, s.states[s.queue[0]].stamp, s.delay) == 0
  }

  /** Everything but packets, sessions and what they owe is as it was; nothing was pushed. */
  ghost predicate NothingPushed(s: Snapshot, t: Snapshot) {
    t == s.(next := t.next, prev := t.prev, head := t.head, tail := t.tail, queue := t.queue, states := t.states,
            bodies := t.bodies, chains := t.chains, sessions := t.sessions, connected := t.connected,
              lookup := t.lookup,
            sent := t.sent)
  }

  /** The retransmit timer of the packet at the head of the queue fires. */
  ghost predicate Firing(s: Snapshot, t: Snapshot, now: Timespec) {
    && Fired(s.queue, s.states, now, t.queue, t.states)
    && var p := s.queue[0];
    && p in s.bodies && Handled(s.bodies[p], s.states[p], s.sessions, s.lookup, s.chains, t.chains, s.sent, t.sent)
    && Dealt(p, s.states[p], Parties(s.sessions, s.connected, s.bodies), s.chains,
             Parties(t.sessions, t.connected, t.bodies))
    && Descends(s.sessions, s.connected, t.sessions, t.connected)
    && (s.states[p].resends > 0 ==> t.lookup == s.lookup)
    && (t.queue == [] ==> t.tail == p != NULL)
    && (s.states[p].resends == 0 && !s.states[p].closing ==>
          p in t.bodies && t.bodies[p].remaining == s.bodies[p].remaining)
    && NothingPushed(s, t)
  }

  /** A payload is pushed to all connected sessions in one new packet. */
  ghost predicate Pushes(s: Snapshot, t: Snapshot, payload: Payload, stamp: Timespec) {
    && s.connected <= |s.sessions|
    && t.queue != [] && var p := t.queue[|t.queue| - 1];
    && p !in s.states && t.queue == s.queue + [p] && t.states == s.states[p := State(RESENDS, false, stamp, payload)]
    && Reached(s.connected, p, s.sessions, s.chains, t.sessions, t.chains) && OnlyNexts(s.bodies, p, t.bodies)
    && s.connected <= |t.sessions| && t.sent == s.sent + PushDatagrams(t.sessions, s.connected, payload)
    && t.history == Pushed(s.history, s.sessions, s.connected, payload)
    && t == s.(next := t.next, prev := t.prev, head := t.head, tail := t.tail, queue := t.queue, states := t.states,
               bodies := t.bodies, chains := t.chains, births := t.births, clock := t.clock, sessions := t.sessions,
               sent := t.sent, history := t.history)
  }

  /** The largest unsigned 32-bit number: no timer is running. */
  const NEVER := 0xffff_ffff

  /** What is left until the next ping, if that timer is running and has not run out. */
  function PingLeft(s: Snapshot, now: Timespec): nat {
    var left := Remaining(now, s.pingStamp, s.interval);
    if s.connected > 0 && left > 0 then left else NEVER
  }

  /** What is left until the packet at the head of the queue has to be sent again. */
  function HeadLeft(s: Snapshot, now: Timespec): nat {
    if s.queue == [] || s.queue[0] !in s.states then NEVER
    else Remaining(now, s.states[s.queue[0]].stamp, s.delay)
  }

  /** A timer is running, for longer than a signed 32-bit number can tell. */
  predicate TooFar(left: nat) {
    0x7fff_ffff <= left != NEVER
  }

  predicate PingDue(s: Snapshot, now: Timespec) {
    s.connected > 0 && Remaining(now, s.pingStamp, s.interval) == 0
  }

  /** Connected sessions are pinged if it is time to. */
  ghost predicate Pinged(s: Snapshot, t: Snapshot, now: Timespec, later: Timespec) {
    if PingDue(s, now) then t.pingStamp == now && Pushes(s, t.(pingStamp := s.pingStamp), Ping, later) else t == s
  }

  /** From the first state of the path to its last one the timer fires once per step, and it is due for
      the packet that it fires for. */
  ghost predicate FiringPath(path: seq<Snapshot>, now: Timespec) {
    && path != [] && (forall k :: 0 <= k < |path| ==> path[k].Sound())
    && forall k :: 0 <= k < |path| - 1 ==> HeadDue(path[k], now) && Firing(path[k], path[k + 1], now)
  }

  /** The timer ran at `now`: it pinged if that was due and then fired for heads that were due, until the
      head was not. */
  ghost predicate TimerPath(path: seq<Snapshot>, s: Snapshot, t: Snapshot, now: Timespec, later: Timespec) {
    && FiringPath(path, now) && Pinged(s, path[0], now, later)
    && t == path[|path| - 1] && !HeadDue(t, now)
  }

  // ---------------------------------------------------------------- acknowledgements and closing

  /** Session `i` has acknowledged what the comparison lets pass. */
  ghost predicate Acked(s: Snapshot, t: Snapshot, i: nat, ackId: nat) {
    && i < |s.sessions| && s.sessions[i].id in s.chains
    && t.chains == AckedChains(s.chains, s.sessions[i], i < s.connected, ackId)
    && t.queue == Kept(s.queue, t.states.Keys) && Framed(s.states, s.bodies, t.states, t.bodies)
    && t.bodies == AckedBodies(s.bodies, s.chains, s.sessions[i], i < s.connected, ackId)
    && TailKept(s.queue, s.tail, t.queue, t.tail) && |t.sessions| == |s.sessions|
    && (forall j :: 0 <= j < |s.sessions| ==> t.sessions[j] == s.sessions[j].(head := t.sessions[j].head))
    && t.sent == s.sent && t.connected == s.connected && t.lookup == s.lookup && NothingPushed(s, t)
  }

  /** Session `i` is gone, and with it everything that nobody else owed. */
  ghost predicate Left(s: Snapshot, t: Snapshot, i: nat) {
    && i < |s.sessions| && s.connected <= |s.sessions|
    && var o := s.sessions[i].id;
    && o in s.chains && t.chains == s.chains - {o} && t.bodies == WithoutDebts(s.bodies, s.chains[o])
    && t.queue == Kept(s.queue, t.states.Keys) && Framed(s.states, s.bodies, t.states, t.bodies)
    && TailKept(s.queue, s.tail, t.queue, t.tail)
    && (if i < s.connected then t.connected == s.connected - 1 && t.sessions == VacatedTwice(s.sessions, s.connected, i)
        else t.connected == s.connected && t.sessions == Vacated(s.sessions, i))
    && NothingPushed(s, t)
  }

  /** A closing request is answered and obeyed. */
  ghost predicate Closing(s: Snapshot, t: Snapshot, i: nat) {
    Left(s, t, i) && t.sent == s.sent + [ClosedReply(s.sessions[i].peer, s.sessions[i].id)]
  }

  /** The answer to a closing request ends a session that has been sent one, and does nothing otherwise. */
  ghost predicate Closed(s: Snapshot, t: Snapshot, i: nat) {
    && i < |s.sessions|
    && if s.IsClosing(i) then s.connected <= i && Left(s, t, i) && t.sent == s.sent else t == s
  }

  // ---------------------------------------------------------------- data

  /** What a command of a packet that is taken comes to: a new value that everybody is told; or nothing but a
      failing assertion, as it is meant for camera 0. */
  datatype Update = Value(payload: CommandList) | NoCamera

  /** One step per update, each pushed in a packet of its own. */
  ghost predicate PushPath(path: seq<Snapshot>, updates: seq<Update>, stamp: Timespec) {
    && |path| == |updates| + 1 && (forall k :: 0 <= k < |path| ==> path[k].Sound())
    && forall k :: 0 <= k < |updates| ==>
         updates[k].Value? && Pushes(path[k], path[k + 1], updates[k].payload, stamp)
  }

  /** All updates have been pushed, and the packet of session `i` that brought them has been noted and
      acknowledged. */
  ghost predicate Taken(path: seq<Snapshot>, s: Snapshot, t: Snapshot, i: nat, id: nat, updates: seq<Update>,
                        stamp: Timespec) {
    && PushPath(path, updates, stamp) && path[0] == s
    && var u := path[|updates|];
    && i < |u.sessions|
    && t == u.(sessions := u.sessions[i := u.sessions[i].(remoteIdLast := id)],
               sent := u.sent + [Ack(u.sessions[i].peer, u.sessions[i].wireId, id)])
  }

  /** The answer to a packet that wants to be acknowledged. */
  function Answer(s: Session, remoteId: Word): Datagram {
    var last := s.remoteIdLast % 0x1_0000;
    match ProxyVerdict(last, remoteId)
    case Next => Ack(s.peer, s.wireId, remoteId)
    case Ahead => RetxRequest(s.peer, s.wireId, (last + 1) % REMOTE_IDS)
    case Behind => Ack(s.peer, s.wireId, last)
  }

  /** The packet is the one that session `i` is expected to send next. */
  predicate IsNext(s: Snapshot, i: nat, remoteId: Word)
    requires i < |s.sessions|
  {
    ProxyVerdict(s.sessions[i].remoteIdLast % 0x1_0000, remoteId).Next?
  }

  /** Session `i` sent a packet that wants to be acknowledged. */
  ghost predicate Answered(s: Snapshot, t: Snapshot, i: nat, remoteId: Word, updates: seq<Update>, now: Timespec) {
    && i < |s.sessions|
    && if IsNext(s, i, remoteId) then exists path :: Taken(path, s, t, i, remoteId, updates, now)
       else t == s.(sent := s.sent + [Answer(s.sessions[i], remoteId)])
  }

  // ---------------------------------------------------------------- received packets

  datatype Opcode = OpenOp | ClosingOp | ClosedOp | OtherOp

  /** A packet from a client. `updates` are what its commands come to, in order. */
  datatype Packet = Packet(len: nat, syn: bool, ack: bool, ackreq: bool, opcode: Opcode, sessionId: Word,
                           ackId: Word, remoteId: Word, updates: seq<Update>)

  /** A packet of an opening handshake, addressed by the id the client chose. */
  predicate IsOpening(p: Packet) {
    HEADER <= p.len && p.sessionId < SERVER_ID
  }

  /** A well-formed request to open a session. */
  predicate IsOpenRequest(p: Packet) {
    IsOpening(p) && p.syn && p.len == SYN_LEN && p.opcode.OpenOp?
  }

  /** The packet belongs to a session, and comes from where that session was opened. */
  predicate FromSession(s: Snapshot, p: Packet, peer: Peer) {
    HEADER <= p.len && SERVER_ID <= p.sessionId && s.Known(p.sessionId) && s.SessionOf(p.sessionId).peer == peer
  }

  /** A client that is not known yet would be let in. */
  predicate Accepts(s: Snapshot, id: nat) {
    s.Unused(id) && s.HasRoom()
  }

  /** A new session in its opening handshake has been sent its accept response. */
  ghost predicate Accepted(s: Snapshot, t: Snapshot, clientId: nat, peer: Peer, now: Timespec) {
    && t.sessionIdLast == (s.sessionIdLast + 1) % SERVER_ID
    && Opened(clientId, peer, s.NextId(), s.sessions, s.chains, s.queue, t.sessions, t.chains, t.queue)
    && t.sent == s.sent + [Data(peer, clientId, 0, Accept(t.sessionIdLast))]
    && NewPacket(s.states, s.bodies, t.queue, Accept(t.sessionIdLast), now, t.states, t.bodies)
    && t.history == s.history - {s.NextId()}
    && t == s.(next := t.next, prev := t.prev, head := t.head, tail := t.tail, queue := t.queue, states := t.states,
               bodies := t.bodies, chains := t.chains, births := t.births, clock := t.clock, sessions := t.sessions,
               lookup := t.lookup, sessionIdLast := t.sessionIdLast, sent := t.sent, history := t.history)
  }

  /** The effect of a well-formed opening request: it adds a session, or is turned away, or has the accept
      response repeated, or is ignored because the client id is another client's. */
  ghost predicate OpenRequested(s: Snapshot, t: Snapshot, clientId: nat, peer: Peer, now: Timespec) {
    if s.Unused(clientId) then
      if s.HasRoom() then Accepted(s, t, clientId, peer, now) else t == s.(sent := s.sent + [Reject(peer, clientId)])
    else
      && s.Known(clientId)
      && var x := s.SessionOf(clientId);
         t == if x.peer != peer then s
              else
                var accept := Accept(if x.id < SERVER_ID then 0 else x.id - SERVER_ID);
                s.(sent := s.sent + [Data(peer, clientId, 0, accept)])
  }

  /** An opening handshake is complete: the session is connected and has been sent the cached state, which
      starts the record of what is pushed to it. */
  ghost predicate HandshakeDone(s: Snapshot, t: Snapshot, clientId: nat, now: Timespec) {
    && s.Known(clientId) && s.connected < |t.sessions|
    && Completed(s.lookup[clientId] - 1, s.connected, s.cache, now, s.states, s.bodies, s.queue, s.chains, s.sessions,
                 t.states, t.bodies, t.queue, t.chains, t.sessions)
    && t.connected == s.connected + 1
    && t.sent == s.sent + ChunkDatagrams(t.sessions[s.connected], s.cache, |s.cache|)
    && t.history == s.history[t.sessions[s.connected].id := s.cache]
    && t.since == s.since[t.sessions[s.connected].id := |s.sent|]
    && t.pingStamp == (if s.connected == 0 then now else s.pingStamp)
    && t == s.(next := t.next, prev := t.prev, head := t.head, tail := t.tail, queue := t.queue, states := t.states,
               bodies := t.bodies, chains := t.chains, births := t.births, clock := t.clock, sessions := t.sessions,
               connected := t.connected, lookup := t.lookup, pingStamp := t.pingStamp, sent := t.sent,
               history := t.history, since := t.since)
  }

  ghost predicate OpeningReceived(s: Snapshot, t: Snapshot, p: Packet, peer: Peer, now: Timespec) {
    if IsOpenRequest(p) then OpenRequested(s, t, p.sessionId, peer, now)
    else if !p.syn && p.ack && s.Opens(p.sessionId, peer) then HandshakeDone(s, t, p.sessionId, now)
    else t == s
  }

  /** A packet of an established session: its acknowledgement is processed first, then a closing or
      closed opcode, then its data. */
  ghost predicate InSession(s: Snapshot, u: Snapshot, t: Snapshot, i: nat, p: Packet, now: Timespec) {
    && i < |s.sessions| && u.Sound()
    && (if p.ack then Acked(s, u, i, p.ackId) else u == s)
    && if p.syn && p.opcode == ClosingOp then Closing(u, t, i)
       else if p.syn && p.opcode == ClosedOp then Closed(u, t, i)
       else if p.ackreq then Answered(u, t, i, p.remoteId, p.updates, now)
       else t == u
  }

  ghost predicate SessionReceived(s: Snapshot, t: Snapshot, i: nat, p: Packet, now: Timespec) {
    exists u :: InSession(s, u, t, i, p, now)
  }

  ghost predicate PacketReceived(s: Snapshot, t: Snapshot, p: Packet, peer: Peer, now: Timespec) {
    if IsOpening(p) then OpeningReceived(s, t, p, peer, now)
    else if FromSession(s, p, peer) then SessionReceived(s, t, s.lookup[p.sessionId] - 1, p, now)
    else t == s
  }

  /** The assertions that a received packet can trip: the next server id is still in use; somebody's data
      is to be passed on although nobody is connected; or a command in it is for camera 0. */
  ghost predicate PacketTrips(s: Snapshot, p: Packet, peer: Peer) {
    || (IsOpenRequest(p) && Accepts(s, p.sessionId) && !s.Unused(s.NextId()))
    || (FromSession(s, p, peer) && p.ackreq && IsNext(s, s.lookup[p.sessionId] - 1, p.remoteId)
        && (s.connected == 0 || NoCamera in p.updates))
  }

  // ---------------------------------------------------------------- events

  datatype Event =
    | Received(packet: Packet, peer: Peer, now: Timespec)
    | TimerRan(now: Timespec, later: Timespec)
    | Shutdown(now: Timespec)
    | Restart

  /** Every session is left with one closing request, which it has been sent, last session first. */
  ghost predicate FlushedAll(s: Snapshot, t: Snapshot, now: Timespec) {
    && t.connected == 0
    && |t.queue| == 1 && t.states == map[t.queue[0] := State(RESENDS, true, now, CloseRequest)]
    && |t.sessions| == |s.sessions| && AllClosing(t.queue[0], t.sessions, t.chains)
    && (forall j :: 0 <= j < |t.sessions| ==>
          var x := s.sessions[j];
          t.sessions[j] == x.(wireId := x.id, head := Loc(t.queue[0], j), tail := t.sessions[j].tail))
    && |t.sent| == |s.sent| + |t.sessions| && t.sent[..|s.sent|] == s.sent
    && (forall j :: 0 <= j < |t.sessions| ==>
          t.sent[|t.sent| - 1 - j] == Data(t.sessions[j].peer, t.sessions[j].id, 0, CloseRequest))
    && t == s.(next := t.next, prev := t.prev, head := t.head, tail := t.tail, queue := t.queue, states := t.states,
               bodies := t.bodies, chains := t.chains, births := t.births, clock := t.clock, sessions := t.sessions,
               connected := t.connected, lookup := t.lookup, sent := t.sent)
  }

  /** What an event does, provided it trips no assertion. */
  ghost predicate Effect(e: Event, s: Snapshot, t: Snapshot) {
    match e
    case Received(p, peer, now) => PacketReceived(s, t, p, peer, now)
    case TimerRan(now, later) => exists path :: TimerPath(path, s, t, now, later)
    case Shutdown(now) =>
      t.shutting && if s.sessions == [] then t == s.(shutting := true) else FlushedAll(s.(shutting := true), t, now)
    case Restart => t == s.(shutting := false)
  }

  /** The event, which leads from `s` to `t`, trips one of the program's assertions. Running the timer does if
      the nearer of its two delays, the one until the next ping and the one until the head of the queue has
      to be sent again, does not fit a signed number. Closing the server does if it is closing already; if a
      session that is not connected shares its packet; or if the queue is empty but its tail was left
      behind. */
  ghost predicate Trips(e: Event, s: Snapshot, t: Snapshot) {
    match e
    case Received(p, peer, now) => PacketTrips(s, p, peer)
    case TimerRan(now, _) => TooFar(Min(PingLeft(s, now), HeadLeft(t, now)))
    case Shutdown(_) =>
      s.shutting || !Unshared(s.bodies, s.sessions, s.connected)
        || (s.sessions != [] && s.queue == [] && s.tail != NULL)
    case Restart => !s.shutting || s.sessions != []
  }

  /** The event trips an assertion. If that is what the timer returns, it has run all the same. */
  ghost predicate Tripped(e: Event, s: Snapshot, t: Snapshot) {
    Trips(e, s, t) && (e.TimerRan? ==> Effect(e, s, t))
  }
}
