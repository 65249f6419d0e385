/** The proxy server's data structures and the invariant that ties them together.

    Memory is an arena: `states` and `bodies` map the address of every allocated packet to its queue
    fields and to its session fields. Releasing a packet removes its address, so a field access
    that verifies is an access to memory that has not been released. */
module ProxyState {
  import opened Basics
  import opened IndexSet

  type Addr = nat

  const NULL: Addr := 0

  const RESENDS := 10
  const RESENDS_CLOSING := 1
  const ID_COUNT := 0x1_0000
  const SERVER_ID := 0x8000

  datatype Timespec = Timespec(sec: int, nsec: int)

  datatype Payload = Accept(newId: nat) | Ping | CloseRequest | Commands(data: seq<int>)

  /** The length of the packet that carries a payload. */
  function Length(p: Payload): nat {
    match p
    case Ping => HEADER
    case Commands(data) => HEADER + |data|
    case _ => SYN_LEN
  }

  /** The payload belongs to an opening or closing handshake, which the packet's flags say. */
  predicate IsSyn(p: Payload) {
    p.Accept? || p.CloseRequest?
  }

  /** Commands that fit into a packet. */
  type CommandList = p: Payload | p.Commands? && Length(p) <= MAX_LEN witness Commands([])

  /** The fields of a queued packet that do not link it to other packets. */
  datatype State = State(resends: nat, closing: bool, stamp: Timespec, payload: Payload)

  datatype Peer = Peer(address: nat, port: nat)

  /** `id` is assigned by the server; `wireId` is the id put into packets, which is the client's
      own id until the opening handshake completes. */
  datatype Session = Session(
    id: nat, wireId: nat, peer: Peer,
    head: Loc, tail: Loc, remoteId: nat, remoteIdLast: nat)

  datatype Datagram =
    | Data(peer: Peer, sessionId: nat, remoteId: nat, payload: Payload)
    | Ack(peer: Peer, sessionId: nat, ackId: nat)
    | RetxRequest(peer: Peer, sessionId: nat, localId: nat)
    | Reject(peer: Peer, sessionId: nat)
    | ClosedReply(peer: Peer, sessionId: nat)

  /** The datagram that carries a packet to one of its sessions. */
  function Transmission(s: Session, slot: Slot, state: State): Datagram {
    Data(s.peer, s.wireId, slot.remoteId, state.payload)
  }

  /** Slot `k` belongs to a registered session. */
  predicate Addressable(sessions: seq<Session>, lookup: seq<int>, b: Body, k: nat) {
    k < |b.slots| && b.slots[k].owner < |lookup| && 1 <= lookup[b.slots[k].owner] <= |sessions|
  }

  /** The datagrams that carry a packet to the sessions at its first `n` positions. */
  ghost function Transmissions(sessions: seq<Session>, lookup: seq<int>, b: Body, state: State, n: nat): seq<Datagram>
    requires n <= |b.slots|
  {
    if n == 0 then []
    else
      var k := IndexAt(b, n - 1);
      Transmissions(sessions, lookup, b, state, n - 1) +
      if !Addressable(sessions, lookup, b, k) then []
      else [Transmission(sessions[lookup[b.slots[k].owner] - 1], b.slots[k], state)]
  }

  /** The datagrams that carry the first `n` chunks of the cached state to a session. */
  ghost function ChunkDatagrams(s: Session, cache: seq<Payload>, n: nat): seq<Datagram>
    requires n <= |cache|
  {
    seq(n, k requires 0 <= k < n => Data(s.peer, s.wireId, k + 1, cache[k]))
  }

  /** The datagrams that carry a new packet to the connected sessions. */
  ghost function PushDatagrams(sessions: seq<Session>, connected: nat, payload: Payload): seq<Datagram>
    requires connected <= |sessions|
  {
    seq(connected, j requires 0 <= j < connected =>
      Data(sessions[j].peer, sessions[j].wireId, sessions[j].remoteId, payload))
  }

  // ---------------------------------------------------------------- the global packet queue

  /** The links spell out `q` in both directions. The tail pointer is only meaningful while the
      queue is not empty. */
  ghost predicate QueueOk(next: map<Addr, Addr>, prev: map<Addr, Addr>, head: Addr, tail: Addr, q: seq<Addr>) {
    && (forall i :: 0 <= i < |q| ==> q[i] != NULL)
    && (forall i, j :: 0 <= i < j < |q| ==> q[i] != q[j])
    && (forall i {:trigger prev[q[i]]} {:trigger q[i] in prev} :: 0 <= i < |q| ==>
          q[i] in prev && prev[q[i]] == if i == 0 then NULL else q[i - 1])
    && (forall i {:trigger next[q[i]]} {:trigger q[i] in next} :: 0 <= i < |q| ==>
          q[i] in next && next[q[i]] == if i == |q| - 1 then NULL else q[i + 1])
    && head == (if q == [] then NULL else q[0])
    && (q != [] ==> tail == q[|q| - 1])
  }

  /** Packets have been taken out of the queue. The last one takes the tail pointer with it, while that of a
      queue that was empty before stays what it was. */
  ghost predicate TailKept(q0: seq<Addr>, tail0: Addr, q1: seq<Addr>, tail1: Addr) {
    && (q0 == [] ==> q1 == [])
    && (q1 == [] ==> tail1 == if q0 == [] then tail0 else NULL)
  }

  /** The members of `q` that are still allocated, in order. */
  ghost function Kept(q: seq<Addr>, alive: set<Addr>): seq<Addr> {
    if q == [] then []
    else (if q[0] in alive then [q[0]] else []) + Kept(q[1..], alive)
  }

  /** Sum over the queue of a measure of its packets. */
  ghost function Total(q: seq<Addr>, states: map<Addr, State>, m: State -> nat): nat {
    if q == [] then 0
    else (if q[0] in states then m(states[q[0]]) else 0) + Total(q[1..], states, m)
  }

  // ---------------------------------------------------------------- packets, chains and owners

  /** While an operation is between two writes, at most one packet (the focus) does not describe its
      owing sessions through its index fields; `live` then says which of its slots are owed. */
  ghost predicate Owed(bodies: map<Addr, Body>, focus: Addr, live: set<nat>, a: Addr, k: nat) {
    && a in bodies
    && k < |bodies[a].slots|
    && if a == focus then k in live else Owes(bodies[a], k)
  }

  /** Everything allocated, except perhaps the focus, is in the queue, and nothing else is. */
  ghost predicate KeysOk(states: map<Addr, State>, bodies: map<Addr, Body>, q: seq<Addr>, focus: Addr) {
    && states.Keys == bodies.Keys
    && NULL !in states
    && (forall i :: 0 <= i < |q| ==> q[i] in states)
    && (forall a :: a in states && a != focus ==> a in q)
  }

  /** A slot is owed exactly when it is a link of the chain of the session that owns it. */
  ghost predicate RefsOk(bodies: map<Addr, Body>, chains: map<nat, seq<Loc>>, focus: Addr, live: set<nat>) {
    && (forall a :: a in bodies && a != focus ==> IndexOk(bodies[a]) && bodies[a].remaining > 0)
    && (forall a, k: nat {:trigger Owed(bodies, focus, live, a, k)} :: Owed(bodies, focus, live, a, k) ==>
          && bodies[a].slots[k].owner in chains
          && Loc(a, k) in chains[bodies[a].slots[k].owner])
    && (forall o, i {:trigger chains[o][i]} :: o in chains && 0 <= i < |chains[o]| ==>
          && Owed(bodies, focus, live, chains[o][i].packet, chains[o][i].slot)
          && bodies[chains[o][i].packet].slots[chains[o][i].slot].owner == o)
  }

  ghost function Birth(births: map<Addr, nat>, a: Addr): nat {
    if a in births then births[a] else 0
  }

  ghost predicate BirthsOk(states: map<Addr, State>, births: map<Addr, nat>, clock: nat) {
    forall a :: a in states ==> a in births && births[a] < clock
  }

  /** Chains list packets in the order in which they were created. */
  ghost predicate ChainsOk(chains: map<nat, seq<Loc>>, births: map<Addr, nat>) {
    forall o, i, j :: o in chains && 0 <= i < j < |chains[o]| ==>
      Birth(births, chains[o][i].packet) < Birth(births, chains[o][j].packet)
  }

  /** Of two packets that are not closing requests, the older one is ahead with no more resends
      left, or behind with fewer. */
  ghost predicate OrderOk(states: map<Addr, State>, q: seq<Addr>, births: map<Addr, nat>) {
    && (forall i :: 0 <= i < |q| ==> q[i] in states && states[q[i]].resends <= RESENDS)
    && forall i, j | 0 <= i < j < |q| && q[i] in states && q[j] in states
                     && !states[q[i]].closing && !states[q[j]].closing ::
         && (Birth(births, q[i]) < Birth(births, q[j]) ==> states[q[i]].resends <= states[q[j]].resends)
         && (Birth(births, q[i]) > Birth(births, q[j]) ==> states[q[j]].resends < states[q[i]].resends)
  }

  ghost predicate PacketsOk(states: map<Addr, State>, bodies: map<Addr, Body>, q: seq<Addr>,
                            chains: map<nat, seq<Loc>>, births: map<Addr, nat>, clock: nat,
                            focus: Addr, live: set<nat>) {
    && KeysOk(states, bodies, q, focus)
    && RefsOk(bodies, chains, focus, live)
    && BirthsOk(states, births, clock)
    && ChainsOk(chains, births)
    && OrderOk(states, q, births)
  }

  // ---------------------------------------------------------------- sessions

  /** The pointers threaded through the slots lead along the chain up to its last link. */
  ghost predicate Strung(bodies: map<Addr, Body>, c: seq<Loc>) {
    && (forall i :: 0 <= i < |c| ==> c[i].packet != NULL)
    && (forall i {:trigger bodies[c[i].packet]} {:trigger c[i].packet in bodies} :: 0 <= i < |c| ==>
          && c[i].packet in bodies && c[i].slot < |bodies[c[i].packet].slots|
          && (i < |c| - 1 ==> bodies[c[i].packet].slots[c[i].slot].next == c[i + 1]))
  }

  /** The pointers spell out the whole chain. */
  ghost predicate Linked(bodies: map<Addr, Body>, c: seq<Loc>) {
    && Strung(bodies, c)
    && (c != [] ==> bodies[c[|c| - 1].packet].slots[c[|c| - 1].slot].next.packet == NULL)
  }

  /** The remote ids along a chain are consecutive and end at `last`. */
  ghost predicate Consecutive(bodies: map<Addr, Body>, c: seq<Loc>, last: nat) {
    forall i :: 0 <= i < |c| && c[i].packet in bodies && c[i].slot < |bodies[c[i].packet].slots| ==>
      bodies[c[i].packet].slots[c[i].slot].remoteId == (last + i + 1 - |c|) % REMOTE_IDS
  }

  /** One session record against the arena. `dropped` names sessions whose only packet is about to
      become a closing request. */
  ghost predicate SessionOk(states: map<Addr, State>, bodies: map<Addr, Body>, chains: map<nat, seq<Loc>>,
                            dropped: set<nat>, s: Session, connected: bool) {
    && s.id in chains
    && var c := chains[s.id];
       && (if c == [] then s.head.packet == NULL else s.head == c[0])
       && Linked(bodies, c)
       && if connected then
            && s.id !in dropped
            && s.remoteId < REMOTE_IDS
            && (c != [] ==> s.tail == c[|c| - 1])
            && Consecutive(bodies, c, s.remoteId)
            && forall i :: 0 <= i < |c| ==> c[i].packet in states && !states[c[i].packet].closing
          else
            && |c| == 1
            && s.tail.packet == c[0].packet
            && c[0].packet in states
            && (s.wireId == s.id <==> states[c[0].packet].closing || s.id in dropped)
            && bodies[c[0].packet].slots[c[0].slot].remoteId == 0
            && (s.wireId != s.id ==> |bodies[c[0].packet].slots| == 1)
  }

  ghost predicate SessionsOk(states: map<Addr, State>, bodies: map<Addr, Body>, chains: map<nat, seq<Loc>>,
                             dropped: set<nat>, sessions: seq<Session>, connected: nat) {
    forall i :: 0 <= i < |sessions| ==>
      SessionOk(states, bodies, chains, dropped, sessions[i], i < connected)
  }

  /** Everyone but session `i`. */
  ghost predicate OthersOk(states: map<Addr, State>, bodies: map<Addr, Body>, chains: map<nat, seq<Loc>>,
                           dropped: set<nat>, sessions: seq<Session>, connected: nat, i: nat) {
    forall j :: 0 <= j < |sessions| && j != i ==>
      SessionOk(states, bodies, chains, dropped, sessions[j], j < connected)
  }

  // ---------------------------------------------------------------- the lookup table

  predicate Registered(lookup: seq<int>, id: nat) {
    id < |lookup| && lookup[id] != 0
  }

  /** A session's ids lead to its index. Only a session in its opening handshake, outside the connected
      prefix, has a second id, and that is the one the client chose. */
  ghost predicate IdsOk(s: Session, i: nat, connected: bool, lookup: seq<int>) {
    && SERVER_ID <= s.id < ID_COUNT == |lookup|
    && lookup[s.id] == i + 1
    && (s.wireId == s.id || (!connected && s.wireId < SERVER_ID && lookup[s.wireId] == i + 1))
  }

  /** Session array and lookup table are mutually inverse. */
  ghost predicate TableOk(sessions: seq<Session>, connected: nat, lookup: seq<int>) {
    && |lookup| == ID_COUNT
    && connected <= |sessions|
    && (forall i :: 0 <= i < |sessions| ==> IdsOk(sessions[i], i, i < connected, lookup))
    && (forall id: nat {:trigger Registered(lookup, id)} :: Registered(lookup, id) ==>
          && 1 <= lookup[id] <= |sessions|
          && (sessions[lookup[id] - 1].id == id || sessions[lookup[id] - 1].wireId == id))
  }

  ghost predicate ChainKeysOk(sessions: seq<Session>, chains: map<nat, seq<Loc>>) {
    forall o :: o in chains ==> exists i :: 0 <= i < |sessions| && sessions[i].id == o
  }

  // ---------------------------------------------------------------- what an operation leaves alone

  /** New packets have been allocated and all others are what they were. */
  ghost predicate Extends(states0: map<Addr, State>, states1: map<Addr, State>) {
    forall a :: a in states0 ==> a in states1 && states1[a] == states0[a]
  }

  /** Every packet that is still allocated kept its state and its session data. */
  ghost predicate Framed(states: map<Addr, State>, bodies: map<Addr, Body>,
                         states': map<Addr, State>, bodies': map<Addr, Body>) {
    && (forall a :: a in states' ==> a in states && states'[a] == states[a])
    && (forall a :: a in bodies' ==> a in bodies && SameSlots(bodies[a], bodies'[a]))
  }

  lemma AppendAssociative<T>(a: seq<T>, b: seq<T>, x: T)
    ensures (a + b) + [x] == a + (b + [x])
  {
  }
}
