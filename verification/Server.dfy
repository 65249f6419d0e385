/** The proxy server: its sessions, its packets and its retransmit queue. */
module ProxyServer {
  import opened Basics
  import opened IndexSet
  import opened ProxyState
  import opened QueueLemmas
  import opened ChainLemmas
  import opened JoinLemmas
  import opened SessionLemmas
  import opened TableLemmas
  import opened Acknowledgement
  import opened Draining
  import opened History

  lemma SomeAddressIsFree(used: set<Addr>)
    ensures exists a: Addr :: a != NULL && a !in used
  {
    var a, seen := 1, used;
    while a in used
      invariant a != NULL
      invariant forall x :: x in used && x >= a ==> x in seen
      decreases |seen|
    {
      seen := seen - {a};
      a := a + 1;
    }
  }

  /** The chains without the oldest `m` links of session `o`. */
  ghost function Forgotten(chains: map<nat, seq<Loc>>, o: nat, m: nat): map<nat, seq<Loc>>
    requires o in chains && m <= |chains[o]|
  {
    chains[o := chains[o][m..]]
  }

  /** The chains after an acknowledgement from session `s`: if it is connected, it owes nothing any more
      of what the comparison lets pass. */
  ghost function AckedChains(chains: map<nat, seq<Loc>>, s: Session, connected: bool, ackId: nat): map<nat, seq<Loc>>
    requires s.id in chains
  {
    Forgotten(chains, s.id, if connected then Released(s.remoteId, |chains[s.id]|, ackId) else 0)
  }

  /** The packets after an acknowledgement from session `s`: what it no longer owes. */
  ghost function AckedBodies(bodies: map<Addr, Body>, chains: map<nat, seq<Loc>>, s: Session, connected: bool,
                             ackId: nat): map<Addr, Body>
    requires s.id in chains
  {
    WithoutDebts(bodies, chains[s.id][..if connected then Released(s.remoteId, |chains[s.id]|, ackId) else 0])
  }

  // ---------------------------------------------------------------- what a firing does to the sessions

  /** A closing request for the session at position `j`. */
  ghost predicate ClosingFor(sessions0: seq<Session>, b: Body, j: nat, d: Datagram) {
    && IndexOk(b) && j < b.remaining
    && var o := b.slots[IndexAt(b, j)].owner;
       d == Data(PeerOf(sessions0, o), o, 0, CloseRequest)
  }

  /** One closing request has been sent to each session at the first `n` positions, in that order. */
  ghost predicate ClosingsSent(sessions0: seq<Session>, b: Body, n: nat, sent0: seq<Datagram>, sent1: seq<Datagram>)
    decreases n
  {
    if n == 0 then sent1 == sent0
    else
      && sent1 != [] && ClosingFor(sessions0, b, n - 1, sent1[|sent1| - 1])
      && ClosingsSent(sessions0, b, n - 1, sent0, sent1[..|sent1| - 1])
  }

  lemma ClosingSent(sessions0: seq<Session>, b: Body, n: nat, sent0: seq<Datagram>, sent1: seq<Datagram>,
                    sent2: seq<Datagram>)
    requires ClosingsSent(sessions0, b, n, sent0, sent1)
    requires |sent2| == |sent1| + 1 && sent2 == sent1 + [sent2[|sent1|]]
    requires ClosingFor(sessions0, b, n, sent2[|sent1|])
    ensures ClosingsSent(sessions0, b, n + 1, sent0, sent2)
  {
  }

  lemma {:induction false} ClosingsTo(sessions0: seq<Session>, b: Body, n: nat, sent0: seq<Datagram>,
                                      sent1: seq<Datagram>)
    requires ClosingsSent(sessions0, b, n, sent0, sent1) && IndexOk(b) && n <= b.remaining
    ensures sent0 <= sent1
    ensures forall k :: |sent0| <= k < |sent1| ==> sent1[k].Data? && sent1[k].sessionId in OwnersBelow(b, n)
    decreases n
  {
    if n > 0 {
      ClosingsTo(sessions0, b, n - 1, sent0, sent1[..|sent1| - 1]);
      OwedFromNext(b, n - 1);
    }
  }

  /** What becomes of the sessions that owe the packet with body `b` and state `s` when its timer fires:
      they are sent the packet again, or removed, or sent a closing request, which is then all they
      owe. */
  ghost predicate Handled(b: Body, s: State, sessions0: seq<Session>, lookup0: seq<int>,
                          chains0: map<nat, seq<Loc>>, chains1: map<nat, seq<Loc>>, sent0: seq<Datagram>,
                            sent1: seq<Datagram>) {
    && IndexOk(b)
    && if s.resends > 0 then
         chains1 == chains0 && sent1 == sent0 + Transmissions(sessions0, lookup0, b, s, b.remaining)
       else if s.closing then
         chains1 == chains0 - OwnersBelow(b, b.remaining) && sent1 == sent0
       else
         Reduced(chains0, OwnersBelow(b, b.remaining), chains1) && ClosingsSent(sessions0, b, b.remaining, sent0, sent1)
  }

  /** What becomes of records and packets when the timer of packet `p` in state `s` fires: nothing; or its
      sessions are removed with it; or they are dropped one after the other. */
  ghost predicate Dealt(p: Addr, s: State, d0: Parties, chains0: map<nat, seq<Loc>>, d1: Parties) {
    && p in d0.bodies && IndexOk(d0.bodies[p])
    && var b := d0.bodies[p];
       if s.resends > 0 then d1 == d0
       else if s.closing then d1 == Parties(Terminated(d0.sessions, b, b.remaining), d0.connected, d0.bodies - {p})
       else FirstForOwners(b, p, chains0) && d1 == OwnersDropped(d0, chains0, p, b, b.remaining)
  }

  /** No chain was run empty: a session that owed something still does, or is gone. */
  ghost predicate Outlived(chains0: map<nat, seq<Loc>>, chains1: map<nat, seq<Loc>>) {
    forall o :: o in chains1 ==> o in chains0 && (chains0[o] != [] ==> chains1[o] != [])
  }

  /** The packet at the end of the queue is new and carries the payload; every other packet is what it was. */
  ghost predicate NewPacket(states0: map<Addr, State>, bodies0: map<Addr, Body>, q: seq<Addr>, payload: Payload,
                            now: Timespec, states: map<Addr, State>, bodies: map<Addr, Body>) {
    && q != [] && var p := q[|q| - 1];
    && p !in states0 && states == states0[p := State(RESENDS, false, now, payload)]
    && OthersKept(bodies0, NULL, bodies)
  }

  /** One more session, in its opening handshake, and one more packet, for that session alone. */
  ghost predicate Opened(clientId: nat, peer: Peer, id: nat, sessions0: seq<Session>, chains0: map<nat, seq<Loc>>,
                         q0: seq<Addr>, sessions: seq<Session>, chains: map<nat, seq<Loc>>, q: seq<Addr>) {
    && |sessions| == |sessions0| + 1 && sessions[..|sessions0|] == sessions0
    && var s := sessions[|sessions0|];
    && s.id == id && s.wireId == clientId && s.peer == peer && s.remoteId == 0 && s.remoteIdLast == 0
    && id !in chains0 && chains == chains0[id := [Loc(s.head.packet, 0)]]
    && q == q0 + [s.head.packet]
  }

  /** Nobody who is not connected shares a packet. */
  predicate Unshared(bodies0: map<Addr, Body>, sessions0: seq<Session>, connected0: nat) {
    forall i :: connected0 <= i < |sessions0| ==>
      sessions0[i].head.packet in bodies0 && bodies0[sessions0[i].head.packet].remaining == 1
  }

  class Server {
    // The fields of the allocated packets, by address.
    var next: map<Addr, Addr>
    var prev: map<Addr, Addr>
    var states: map<Addr, State>
    var bodies: map<Addr, Body>
    // The retransmit queue.
    var head: Addr
    var tail: Addr
    // The sessions; the connected ones come first.
    var sessions: seq<Session>
    var connected: nat
    const lookup: array<int>
    const sessionsLimit: nat
    var sessionIdLast: nat
    var shutting: bool
    // Timing.
    const retransmitDelay: nat
    const pingInterval: nat
    var pingStamp: Timespec
    // The chunks of the cached state that a new client is sent.
    const cache: seq<CommandList>
    // What has been handed to the socket.
    var sent: seq<Datagram>

    /** The retransmit queue as a sequence of addresses. */
    ghost var queue: seq<Addr>
    /** For every session, the slots it still owes an acknowledgement for, oldest first. */
    ghost var chains: map<nat, seq<Loc>>
    /** When each packet was created. */
    ghost var births: map<Addr, nat>
    ghost var clock: nat
    /** What has been pushed to every session since it was connected. */
    ghost var history: map<nat, seq<Payload>>
    /** How many datagrams had been sent before a session was connected. */
    ghost var since: map<nat, nat>

    ghost predicate Queue()
      reads this
    {
      QueueOk(next, prev, head, tail, queue)
    }

    ghost predicate Packets(focus: Addr, live: set<nat>)
      reads this
    {
      PacketsOk(states, bodies, queue, chains, births, clock, focus, live)
    }

    ghost predicate Sessions(dropped: set<nat>)
      reads this
    {
      && SessionsOk(states, bodies, chains, dropped, sessions, connected)
      && ChainKeysOk(sessions, chains)
    }

    ghost predicate Config()
      reads this
    {
      && |sessions| <= sessionsLimit < 0x7fff
      && sessionIdLast < SERVER_ID
      && 0 < retransmitDelay < pingInterval < ID_COUNT
      && 1 <= |cache| < 0x100
    }

    /** The invariant of the server between two events. */
    ghost predicate Inv()
      reads this, lookup
    {
      Queue() && Packets(NULL, {}) && Table() && Sessions({}) && Config()
    }

    /** The invariant, and the record of what was pushed is right. */
    ghost predicate Valid()
      reads this, lookup
    {
      Inv() && Logged()
    }

    constructor (limit: nat, delay: nat, interval: nat, chunks: seq<CommandList>)
      requires limit < 0x7fff && 0 < delay < interval < ID_COUNT
      requires 1 <= |chunks| < 0x100
      ensures Inv() && Logged() && fresh(lookup)
      ensures sessions == [] && connected == 0 && queue == [] && tail == NULL && sent == [] && !shutting
      ensures sessionsLimit == limit && retransmitDelay == delay && pingInterval == interval && cache == chunks
      ensures next == map[] && prev == map[] && head == NULL && states == map[] && bodies == map[] && chains == map[]
      ensures births == map[] && clock == 0 && history == map[] && since == map[]
      ensures sessionIdLast == 0 && pingStamp == Timespec(0, 0) && lookup[..] == seq(ID_COUNT, _ => 0)
    {
      next, prev, states, bodies := map[], map[], map[], map[];
      head, tail := NULL, NULL;
      sessions, connected, sessionIdLast, shutting := [], 0, 0, false;
      lookup := new int[ID_COUNT](_ => 0);
      sessionsLimit, retransmitDelay, pingInterval, cache := limit, delay, interval, chunks;
      pingStamp := Timespec(0, 0);
      sent := [];
      queue, chains, births, clock, history, since := [], map[], map[], 0, map[], map[];
    }

    // -------------------------------------------------------------- the record of what was pushed

    /** Chains, sessions and everything that has been sent agree with what was pushed to the sessions. */
    ghost predicate Logged()
      reads `states, `chains, `history, `since, `sessions, `connected, `sent
    {
      Recorded(states, chains, sessions, connected, sent, since, history)
    }

    /** An operation that pushes nothing. */
    lemma StillLogged(states0: map<Addr, State>, chains0: map<nat, seq<Loc>>, sessions0: seq<Session>, connected0: nat,
                      sent0: seq<Datagram>)
      requires LinksKept(states0, chains0, states, chains) && Descends(sessions0, connected0, sessions, connected)
      requires sent0 <= sent && NotToConnected(sent, |sent0|, sessions, connected)
      ensures Recorded(states0, chains0, sessions0, connected0, sent0, since, history) ==> Logged()
    {
      hide LinksKept, Descends, ChainsLogged, SessionsLogged, SentLogged, NotToConnected;
      if Recorded(states0, chains0, sessions0, connected0, sent0, since, history) {
        ChainsKept(states0, chains0, history, states, chains);
        SessionsKept(sessions0, connected0, sessions, connected, history);
        SentNothing(sent0, since, sessions0, connected0, history, sent, sessions, connected);
      }
    }

    /** Giving up links and removing records pushes nothing. */
    lemma LoggedAfterRemoval(states0: map<Addr, State>, bodies0: map<Addr, Body>, chains0: map<nat, seq<Loc>>,
                             sessions0: seq<Session>, connected0: nat, sent0: seq<Datagram>)
      requires Packets(NULL, {}) && Framed(states0, bodies0, states, bodies) && Shortened(chains0, chains)
      requires Descends(sessions0, connected0, sessions, connected)
      requires sent == sent0 || (|sent| == |sent0| + 1 && sent0 <= sent && !sent[|sent0|].Data?)
      ensures Recorded(states0, chains0, sessions0, connected0, sent0, since, history) ==> Logged()
    {
      hide Recorded, Shortened, Descends, PacketsOk;
      LinksAllocated();
      ShortenedKept(states0, chains0, states, chains);
      StillLogged(states0, chains0, sessions0, connected0, sent0);
    }

    lemma LinksAllocated()
      requires Packets(NULL, {})
      ensures LinksIn(states, chains)
    {
      hide OrderOk, ChainsOk, BirthsOk, IndexOk;
      forall o: nat, i: nat {:trigger chains[o][i]} | o in chains && i < |chains[o]|
        ensures chains[o][i].packet in states
      {
        LinkOwed(bodies, chains, o, i);
      }
    }

    // -------------------------------------------------------------- the lookup table

    ghost predicate Table()
      reads this, lookup
    {
      TableOk(sessions, connected, lookup[..])
    }

    function LookupGet(id: nat): int
      requires lookup.Length == ID_COUNT && id < ID_COUNT
      reads lookup
    {
      lookup[id] - 1
    }

    method LookupSet(id: nat, i: nat)
      requires lookup.Length == ID_COUNT && id < ID_COUNT
      modifies lookup
      ensures lookup[..] == old(lookup[..])[id := i + 1]
    {
      lookup[id] := i + 1;
    }

    method LookupClear(id: nat)
      requires lookup.Length == ID_COUNT && id < ID_COUNT
      modifies lookup
      ensures lookup[..] == old(lookup[..])[id := 0]
    {
      lookup[id] := 0;
    }

    /** Exchanges session `i` with the first session behind the connected ones. */
    method SessionSwap(i: nat)
      requires lookup.Length == ID_COUNT && i < |sessions| && connected < |sessions|
      requires sessions[i].id < ID_COUNT && sessions[connected].id < ID_COUNT
      modifies `sessions, lookup
      ensures sessions == Swapped(old(sessions), i, connected)
      ensures lookup[..] == SwappedLookup(old(sessions), old(lookup[..]), i, connected)
    {
      var temporary := sessions[i];
      sessions := sessions[i := sessions[connected]];
      sessions := sessions[connected := temporary];
      LookupSet(sessions[i].id, i);
      LookupSet(sessions[connected].id, connected);
    }

    /** Removes the record of session `i` after its ids have been unregistered. */
    method SessionRelease(i: nat)
      requires lookup.Length == ID_COUNT && i < |sessions|
      requires sessions[|sessions| - 1].id < ID_COUNT && sessions[|sessions| - 1].wireId < ID_COUNT
      modifies `sessions, lookup
      ensures sessions == Vacated(old(sessions), i)
      ensures lookup[..] == VacatedLookup(old(sessions), old(lookup[..]), i)
    {
      var last := |sessions| - 1;
      if i != last {
        sessions := sessions[i := sessions[last]];
        LookupSet(sessions[i].id, i);
        LookupSet(sessions[i].wireId, i);
      }
      sessions := sessions[..last];
    }

    // -------------------------------------------------------------- the queue

    /** Appends a packet to the retransmit queue. */
    method Enqueue(p: Addr, closing: bool, now: Timespec)
      requires Queue()
      requires p in states && p != NULL && p !in queue
      modifies `next, `prev, `states, `head, `tail, `queue
      ensures Queue()
      ensures queue == old(queue) + [p]
      ensures states == old(states)[p := State(RESENDS, closing, now, old(states)[p].payload)]
    {
      states := states[p := states[p].(closing := closing, resends := RESENDS, stamp := now)];
      if head == NULL {
        head := p;
        prev := prev[p := NULL];
      } else {
        next := next[tail := p];
        prev := prev[p := tail];
      }
      tail := p;
      next := next[p := NULL];
      queue := queue + [p];
    }

    /** Unlinks a packet from the retransmit queue, wherever it is. */
    method Dequeue(p: Addr, ghost i: nat)
      requires Queue()
      requires i < |queue| && queue[i] == p
      modifies `next, `prev, `head, `tail, `queue
      ensures Queue()
      ensures queue == Cut(old(queue), i)
      ensures queue == [] ==> tail == NULL
    {
      CutAt(queue, i);
      Unlinked(next, prev, head, tail, queue, i, Cut(queue, i));
      if prev[p] == NULL {
        head := next[p];
      } else {
        next := next[prev[p] := next[p]];
      }
      if next[p] == NULL {
        tail := prev[p];
      } else {
        prev := prev[next[p] := prev[p]];
      }
      queue := Cut(queue, i);
    }

    /** Rotates the head of the queue to its end and stamps it. */
    method Requeue(now: Timespec)
      requires Queue() && queue != [] && queue[0] in states
      modifies `next, `prev, `states, `head, `tail, `queue
      ensures Queue()
      ensures queue == old(queue)[1..] + [old(queue)[0]]
      ensures states == old(states)[old(queue)[0] := old(states)[old(queue)[0]].(stamp := now)]
    {
      var p := head;
      if tail != p {
        Rotated(next, prev, head, tail, queue, queue[1..] + [queue[0]]);
        head := next[p];
        prev := prev[head := NULL];
        prev := prev[p := tail];
        next := next[p := NULL];
        next := next[tail := p];
        tail := p;
      }
      states := states[p := states[p].(stamp := now)];
      queue := queue[1..] + [queue[0]];
    }

    // -------------------------------------------------------------- packets

    /** Takes a packet out of the queue and frees its memory. */
    method Release(p: Addr, ghost i: nat)
      requires Queue()
      requires i < |queue| && queue[i] == p
      modifies `next, `prev, `head, `tail, `queue, `states, `bodies
      ensures Queue()
      ensures queue == Cut(old(queue), i)
      ensures queue == [] ==> tail == NULL
      ensures states == old(states) - {p} && bodies == old(bodies) - {p}
    {
      Dequeue(p, i);
      Free(p);
    }

    method Free(p: Addr)
      requires Queue() && p !in queue
      modifies `next, `prev, `states, `bodies
      ensures Queue()
      ensures states == old(states) - {p} && bodies == old(bodies) - {p}
    {
      next := next - {p};
      prev := prev - {p};
      states := states - {p};
      bodies := bodies - {p};
    }

    /** Slot `k` leaves the set of owed slots of packet `p`, which is released once the set is empty. */
    method DropSlot(p: Addr, k: nat, ghost i: nat)
      requires Queue() && i < |queue| && queue[i] == p
      requires p in bodies && IndexOk(bodies[p]) && Owes(bodies[p], k)
      modifies `next, `prev, `head, `tail, `queue, `states, `bodies
      ensures Queue()
      ensures bodies == Disassociated(old(bodies), p, k)
      ensures states == if old(bodies)[p].remaining > 1 then old(states) else old(states) - {p}
      ensures queue == if old(bodies)[p].remaining > 1 then old(queue) else Cut(old(queue), i)
      ensures queue == [] ==> tail == NULL
    {
      if bodies[p].remaining > 1 {
        assert IndexAt(bodies[p], bodies[p].remaining - 1) < |bodies[p].slots|;
        var n := bodies[p].remaining - 1;
        var last := bodies[p].slots[n].index;
        bodies := bodies[p := bodies[p].(remaining := n)];
        bodies := bodies[p := SetIndex(bodies[p], last, bodies[p].slots[k].index)];
        bodies := bodies[p := SetIndex(bodies[p], bodies[p].slots[k].index, last)];
      } else {
        Release(p, i);
      }
    }

    /** The session at position `i` of the chain of `o` gives up its slot `k` of packet `p`. */
    method Disassociate(p: Addr, k: nat, ghost o: nat, ghost i: nat)
      requires Queue() && Packets(NULL, {})
      requires o in chains && i < |chains[o]| && chains[o][i] == Loc(p, k)
      modifies `next, `prev, `head, `tail, `queue, `states, `bodies, `chains
      ensures Queue() && Packets(NULL, {})
      ensures chains == old(chains)[o := Without(old(chains)[o], i)]
      ensures queue == Kept(old(queue), states.Keys)
      ensures Framed(old(states), old(bodies), states, bodies)
      ensures forall a :: a in old(bodies) && a != p ==> a in bodies && bodies[a] == old(bodies)[a]
      ensures bodies == WithoutDebts(old(bodies), [Loc(p, k)])
      ensures old(queue) != [] && (queue == [] ==> tail == NULL)
    {
      hide PacketsOk, QueueOk, Disassociated, IndexOk, Owes, WithoutDebts, Kept, Cut, Without, SameSlots;
      ghost var j := QueuePosition(o, i);
      LinkInArena(o, i);
      OneDebt(bodies, Loc(p, k));
      PacketsDisassociated(states, bodies, queue, chains, births, clock, o, i, j);
      DropSlot(p, k, j);
      chains := chains[o := Without(chains[o], i)];
    }

    lemma LinkInArena(o: nat, i: nat)
      requires Packets(NULL, {}) && o in chains && i < |chains[o]|
      ensures ChainsOk(chains, births)
      ensures var l := chains[o][i];
        && l.packet != NULL && l.packet in states && l.packet in bodies && l.slot < |bodies[l.packet].slots|
        && IndexOk(bodies[l.packet]) && Owes(bodies[l.packet], l.slot)
        && bodies[l.packet].slots[l.slot].owner == o
    {
    }

    lemma QueuePosition(o: nat, i: nat) returns (j: nat)
      requires Queue() && Packets(NULL, {}) && o in chains && i < |chains[o]|
      ensures Distinct(queue) && j < |queue| && queue[j] == chains[o][i].packet
    {
      LinkOwed(bodies, chains, o, i);
      j :| 0 <= j < |queue| && queue[j] == chains[o][i].packet;
    }

    /** Gives up the links of the chain of `o` from position `n` on, starting at `start`. */
    method Flush(start: Loc, ghost o: nat, ghost n: nat)
      requires Queue() && Packets(NULL, {})
      requires o in chains && n <= |chains[o]| && Linked(bodies, chains[o][n..])
      requires if n == |chains[o]| then start.packet == NULL else start == chains[o][n]
      modifies `next, `prev, `head, `tail, `queue, `states, `bodies, `chains
      ensures Queue() && Packets(NULL, {})
      ensures chains == old(chains)[o := old(chains)[o][..n]]
      ensures queue == Kept(old(queue), states.Keys)
      ensures Framed(old(states), old(bodies), states, bodies)
      ensures OnlyIn(old(bodies), bodies, old(chains)[o][n..])
      ensures bodies == WithoutDebts(old(bodies), old(chains)[o][n..])
      ensures TailKept(old(queue), old(tail), queue, tail)
    {
      hide PacketsOk, QueueOk, ChainsOk, Framed, OnlyIn, Linked, Kept, PacketsOf, WithoutDebts;
      ghost var rest := chains[o][n..];
      FlushStarts(o, n);
      var p, k := start.packet, start.slot;
      while p != NULL
        invariant Queue() && Packets(NULL, {})
        invariant o in chains && n <= |chains[o]| && Linked(bodies, chains[o][n..])
        invariant if n == |chains[o]| then p == NULL else p != NULL && Loc(p, k) == chains[o][n]
        invariant chains == old(chains)[o := chains[o]] && chains[o][..n] == old(chains)[o][..n]
        invariant PacketsOf(chains[o][n..]) <= PacketsOf(rest)
        invariant queue == Kept(old(queue), states.Keys) && states.Keys <= old(states).Keys
        invariant Framed(old(states), old(bodies), states, bodies)
        invariant OnlyIn(old(bodies), bodies, rest)
        invariant WithoutDebts(bodies, chains[o][n..]) == WithoutDebts(old(bodies), rest)
        invariant TailKept(old(queue), old(tail), queue, tail)
        decreases |chains[o]|
      {
        LinkInArena(o, n);
        var following := bodies[p].slots[k].next;
        label before:
        Disassociate(p, k, o, n);
        DebtsOneByOne(old@before(bodies), old@before(chains)[o][n..]);
        assert old@before(chains)[o][n..][1..] == chains[o][n..];
        RestAfter(old@before(bodies), bodies, old@before(chains), births, o, n);
        OnlyInMore(old(bodies), old@before(bodies), bodies, rest, p);
        FramedTwice(old(states), old(bodies), old@before(states), old@before(bodies), states, bodies);
        KeptTwice(old(queue), old@before(states).Keys, states.Keys);
        p, k := following.packet, following.slot;
      }
      assert chains[o][..n] == chains[o] && chains[o][n..] == [];
      NoDebts(bodies);
    }

    lemma FlushStarts(o: nat, n: nat)
      requires Packets(NULL, {}) && o in chains && n <= |chains[o]|
      ensures queue == Kept(queue, states.Keys)
      ensures Framed(states, bodies, states, bodies)
      ensures OnlyIn(bodies, bodies, chains[o][n..])
      ensures n < |chains[o]| ==> chains[o][n].packet != NULL
    {
      KeptAll(queue, states.Keys);
      if n < |chains[o]| { LinkInArena(o, n); }
    }

    // -------------------------------------------------------------- creating packets

    /** Allocates a packet for `n` sessions. Apart from what it is to carry, its memory holds arbitrary
        values. */
    method Alloc(n: nat, payload: Payload) returns (p: Addr)
      requires Queue() && Packets(NULL, {}) && n > 0
      modifies `next, `prev, `states, `bodies, `births, `clock
      ensures Queue() && Packets(p, {}) && Youngest(states, births, p)
      ensures p != NULL && p in states && p in bodies && p !in old(states) && p !in queue
      ensures states == old(states)[p := states[p]] && bodies == old(bodies)[p := bodies[p]]
      ensures bodies[p].remaining == n == |bodies[p].slots| && states[p].payload == payload
    {
      SomeAddressIsFree(states.Keys);
      p :| p != NULL && p !in states.Keys;
      var junk: State := *;
      assert |seq(n, i => Slot(0, Loc(NULL, 0), 0, 0))| == n;
      var slots: seq<Slot> :| |slots| == n;
      PacketsAllocated(states, bodies, queue, chains, births, clock, p, junk.(payload := payload), Body(n, slots));
      states := states[p := junk.(payload := payload)];
      bodies := bodies[p := Body(n, slots)];
      births := births[p := clock];
      clock := clock + 1;
    }

    /** Sends slot `k` of packet `p` to the session that owns it, which is session `i`. */
    method PacketSend(p: Addr, k: nat, ghost i: nat)
      requires p in bodies && p in states && k < |bodies[p].slots|
      requires lookup.Length == ID_COUNT && i < |sessions|
      requires bodies[p].slots[k].owner < ID_COUNT && lookup[bodies[p].slots[k].owner] == i + 1
      modifies `sent
      ensures sent == old(sent) + [Transmission(sessions[i], bodies[p].slots[k], states[p])]
    {
      var slot := bodies[p].slots[k];
      var session := sessions[LookupGet(slot.owner)];
      sent := sent + [Data(session.peer, session.wireId, slot.remoteId, states[p].payload)];
    }

    /** Sends slot `k` of packet `p` to session `i` under the session's next remote id and appends it to
        the session's chain. */
    method PacketPush(i: nat, p: Addr, k: nat, ghost live: set<nat>)
      requires Packets(p, live)
      requires lookup.Length == ID_COUNT && i < |sessions| && sessions[i].id < ID_COUNT
      requires lookup[sessions[i].id] == i + 1
      requires sessions[i].id in chains && EndsOk(chains, sessions[i])
      requires p in states && p in bodies && k < |bodies[p].slots| && k !in live
      requires forall j :: 0 <= j < |chains[sessions[i].id]| ==>
        Birth(births, chains[sessions[i].id][j].packet) < Birth(births, p)
      modifies `bodies, `sessions, `sent, `chains
      ensures Packets(p, live + {k})
      ensures old(sessions)[i].head.packet != NULL ==>
        var l := old(sessions)[i].tail;
        l.packet in old(bodies) && l.slot < |old(bodies)[l.packet].slots| && l != Loc(p, k)
      ensures bodies == Joined(old(bodies), old(sessions)[i], Loc(p, k))
      ensures sessions == old(sessions)[i := JoinedSession(old(sessions)[i], Loc(p, k))]
      ensures chains == old(chains)[sessions[i].id := old(chains)[sessions[i].id] + [Loc(p, k)]]
      ensures sent == old(sent) + [Data(sessions[i].peer, sessions[i].wireId, sessions[i].remoteId, states[p].payload)]
    {
      hide PacketsOk;
      PacketsJoined(states, bodies, queue, chains, births, clock, p, live, sessions[i], k);
      var slot := SlotAt(bodies, Loc(p, k));
      ghost var bodies0, s0 := bodies, sessions[i];
      bodies := WithSlot(bodies, Loc(p, k), Slot(sessions[i].id, Loc(NULL, slot.next.slot), k, slot.remoteId));
      sessions := sessions[i := sessions[i].(remoteId := (sessions[i].remoteId + 1) % REMOTE_IDS)];
      bodies := WithSlot(bodies, Loc(p, k), SlotAt(bodies, Loc(p, k)).(remoteId := sessions[i].remoteId));
      WithSlotTwice(bodies0, Loc(p, k), Slot(s0.id, Loc(NULL, slot.next.slot), k, slot.remoteId),
                    SlotAt(bodies, Loc(p, k)));
      PacketSend(p, k, i);
      if sessions[i].head.packet == NULL {
        sessions := sessions[i := sessions[i].(head := Loc(p, k))];
      } else {
        var end := sessions[i].tail;
        bodies := WithSlot(bodies, end, SlotAt(bodies, end).(next := Loc(p, k)));
      }
      sessions := sessions[i := sessions[i].(tail := Loc(p, k))];
      chains := chains[sessions[i].id := chains[sessions[i].id] + [Loc(p, k)]];
    }

    /** Sends a new packet to every connected session and queues it for retransmission. */
    method Broadcast(p: Addr, now: Timespec)
      requires Queue() && Packets(p, {}) && Table() && Sessions({})
      requires p != NULL && p in states && p in bodies && p !in queue && Youngest(states, births, p)
      requires 0 < connected == bodies[p].remaining == |bodies[p].slots|
      modifies `next, `prev, `states, `bodies, `head, `tail, `queue, `sessions, `sent, `chains
      ensures Queue() && Packets(NULL, {}) && Table() && Sessions({})
      ensures queue == old(queue) + [p]
      ensures states == old(states)[p := State(RESENDS, false, now, old(states)[p].payload)]
      ensures Reached(connected, p, old(sessions), old(chains), sessions, chains)
      ensures OnlyNexts(old(bodies), p, bodies)
      ensures |sent| == |old(sent)| + connected && sent[..|old(sent)|] == old(sent)
      ensures forall j :: 0 <= j < connected ==>
        sent[|old(sent)| + j] == Data(sessions[j].peer, sessions[j].wireId, sessions[j].remoteId, states[p].payload)
    {
      hide PacketsOk, QueueOk, TableOk, SessionsOk, Youngest, Reached, Filled, Below, Unchained, DistinctIds, Joined;
      hide EndsOk, ChainKeysOk, OnlyNexts;
      NothingRelinked(p);
      ghost var settled := State(RESENDS, false, now, states[p].payload);
      BroadcastStarts(p, settled);
      var i := 0;
      while i < connected
        modifies `bodies, `sessions, `sent, `chains
        invariant i <= connected <= |sessions| == |old(sessions)|
        invariant Packets(p, Below(i)) && Table()
        invariant p in bodies && Filled(bodies[p], i, old(sessions)) && |bodies[p].slots| == connected
        invariant SessionsOk(states[p := settled], bodies, chains, {}, sessions, connected)
        invariant Reached(i, p, old(sessions), old(chains), sessions, chains)
        invariant OnlyNexts(old(bodies), p, bodies)
        invariant |sent| == |old(sent)| + i && sent[..|old(sent)|] == old(sent)
        invariant forall j :: 0 <= j < i ==>
          sent[|old(sent)| + j] == Data(sessions[j].peer, sessions[j].wireId, sessions[j].remoteId, states[p].payload)
      {
        BroadcastContinues(i, p, settled, old(sessions), old(chains));
        JoinedOnlyNexts(old(bodies), bodies, sessions[i], Loc(p, i));
        PacketPush(i, p, i, Below(i));
        i := i + 1;
      }
      BroadcastEnds(p, settled, old(sessions), old(chains));
      Enqueue(p, false, now);
    }

    lemma NothingRelinked(p: Addr)
      ensures OnlyNexts(bodies, p, bodies)
    {
    }

    lemma BroadcastStarts(p: Addr, settled: State)
      requires Queue() && Packets(p, {}) && Table() && Sessions({})
      requires p in states && p in bodies && p !in queue && Youngest(states, births, p)
      ensures Unchained(chains, p) && DistinctIds(sessions)
      ensures SessionsOk(states[p := settled], bodies, chains, {}, sessions, connected)
      ensures Filled(bodies[p], 0, sessions) <== |bodies[p].slots| == bodies[p].remaining <= |sessions|
      ensures Reached(0, p, sessions, chains, sessions, chains)
      ensures Below(0) == {}
      ensures states.Keys == bodies.Keys && lookup.Length == ID_COUNT && connected <= |sessions|
    {
      hide SessionsOk, ChainKeysOk, Unchained, QueueOk, RefsOk, ChainsOk, OrderOk, BirthsOk, Youngest, DistinctIds;
      NothingOwedUnchained(bodies, chains, p);
      SessionsIgnore(states, bodies, chains, states[p := settled], bodies, sessions, connected, p);
      TableDistinct(sessions, connected, lookup[..]);
      forall j | 0 <= j < |sessions| && sessions[j].id in chains
        ensures chains[sessions[j].id] == chains[sessions[j].id] + []
      {
      }
    }

    lemma BroadcastContinues(n: nat, p: Addr, settled: State, sessions0: seq<Session>, chains0: map<nat, seq<Loc>>)
      requires Packets(p, Below(n)) && Table()
      requires SessionsOk(states[p := settled], bodies, chains, {}, sessions, connected)
      requires p in states && p != NULL && !settled.closing
      requires Youngest(states, births, p) && Unchained(chains0, p) && DistinctIds(sessions0)
      requires Reached(n, p, sessions0, chains0, sessions, chains)
      requires n < connected <= |sessions| == |sessions0| && p in bodies && Filled(bodies[p], n, sessions0)
      requires connected == |bodies[p].slots|
      ensures var s := sessions[n]; var l := Loc(p, n);
        && s.id in chains && EndsOk(chains, s) && s.id < ID_COUNT && lookup.Length == ID_COUNT && lookup[s.id] == n + 1
        && n !in Below(n) && Below(n) + {n} == Below(n + 1)
        && (forall j :: 0 <= j < |chains[s.id]| ==> Birth(births, chains[s.id][j].packet) < Birth(births, p))
        && (s.head.packet != NULL ==> s.tail.packet in bodies && s.tail.slot < |bodies[s.tail.packet].slots|)
        && var bodies' := Joined(bodies, s, l);
           var chains' := chains[s.id := chains[s.id] + [l]];
           var sessions' := sessions[n := JoinedSession(s, l)];
        && SessionsOk(states[p := settled], bodies', chains', {}, sessions', connected)
        && TableOk(sessions', connected, lookup[..])
        && Reached(n + 1, p, sessions0, chains0, sessions', chains')
        && p in bodies' && Filled(bodies'[p], n + 1, sessions0) && |bodies'[p].slots| == connected
    {
      hide TableOk, SessionsOk, Reached, Filled, Unchained, Youngest, EndsOk, RefsOk, OrderOk, BirthsOk, ChainsOk;
      PushReady(n, p, settled, sessions0, chains0);
      var s := sessions[n];
      ReachedOneMore(bodies, n, p, sessions0, chains0, sessions, chains);
      TableDistinct(sessions, connected, lookup[..]);
      SessionsJoined(states[p := settled], bodies, chains, births, sessions, connected, p, Below(n), n, n);
      TableSameIds(sessions, sessions[n := JoinedSession(s, Loc(p, n))], connected, lookup[..]);
    }

    lemma PushReady(n: nat, p: Addr, settled: State, sessions0: seq<Session>, chains0: map<nat, seq<Loc>>)
      requires Packets(p, Below(n)) && Table()
      requires SessionsOk(states[p := settled], bodies, chains, {}, sessions, connected)
      requires p in states
      requires Youngest(states, births, p) && Unchained(chains0, p) && DistinctIds(sessions0)
      requires Reached(n, p, sessions0, chains0, sessions, chains)
      requires n < connected <= |sessions| == |sessions0| && p in bodies && Filled(bodies[p], n, sessions0)
      requires connected == |bodies[p].slots|
      ensures var s := sessions[n];
        && s.id in chains && EndsOk(chains, s) && s.id < ID_COUNT && lookup.Length == ID_COUNT && lookup[s.id] == n + 1
        && (forall j :: 0 <= j < |chains[s.id]| ==>
              chains[s.id][j].packet != p && Birth(births, chains[s.id][j].packet) < Birth(births, p))
        && (s.head.packet != NULL ==>
              s.tail.packet in bodies && s.tail.slot < |bodies[s.tail.packet].slots| && s.tail.packet != p)
        && RefsOk(bodies, chains, p, Below(n)) && bodies.Keys == states.Keys
    {
      hide SessionsOk, Reached, Filled, Unchained, EndsOk, RefsOk, OrderOk, BirthsOk, ChainsOk;
      assert Youngest(states[p := settled], births, p);
      ReachedNext(states[p := settled], bodies, births, n, p, sessions0, chains0, sessions, chains, connected);
    }

    lemma BroadcastEnds(p: Addr, settled: State, sessions0: seq<Session>, chains0: map<nat, seq<Loc>>)
      requires Packets(p, Below(connected)) && SessionsOk(states[p := settled], bodies, chains, {}, sessions, connected)
      requires p in states && p != NULL && p !in queue && p in bodies && 0 < |bodies[p].slots| == connected
      requires settled.resends == RESENDS
      requires Youngest(states, births, p) && Filled(bodies[p], connected, sessions0)
      requires Reached(connected, p, sessions0, chains0, sessions, chains) && ChainKeysOk(sessions0, chains0)
      requires DistinctIds(sessions0)
      ensures PacketsOk(states[p := settled], bodies, queue + [p], chains, births, clock, NULL, {})
      ensures ChainKeysOk(sessions, chains)
    {
      hide SessionsOk, RefsOk, OrderOk, BirthsOk, ChainsOk;
      PacketsEnqueued(states, bodies, queue, chains, births, clock, p, Below(connected), settled);
      FilledSettled(bodies[p], sessions0);
      PacketsSettled(states[p := settled], bodies, queue + [p], chains, births, clock, p, Below(connected));
      ChainKeysSame(sessions0, sessions, chains0, chains);
    }

    // -------------------------------------------------------------- acknowledgements

    /** Releases the packets of session `i`, oldest first, while their ids pass the comparison. */
    method ReleaseAcknowledged(i: nat, ackId: nat) returns (ghost m: nat)
      requires Inv() && i < |sessions|
      modifies `next, `prev, `head, `tail, `queue, `states, `bodies, `chains, `sessions
      ensures Inv()
      ensures old(sessions)[i].id in old(chains) && m <= |old(chains)[old(sessions)[i].id]|
      ensures m == if i < connected then
                     Released(old(sessions)[i].remoteId, |old(chains)[old(sessions)[i].id]|, ackId)
                   else 0
      ensures chains == Forgotten(old(chains), old(sessions)[i].id, m)
      ensures queue == Kept(old(queue), states.Keys)
      ensures Framed(old(states), old(bodies), states, bodies)
      ensures bodies == WithoutDebts(old(bodies), old(chains)[old(sessions)[i].id][..m])
      ensures TailKept(old(queue), old(tail), queue, tail)
      ensures |sessions| == |old(sessions)|
      ensures forall j :: 0 <= j < |sessions| ==> sessions[j] == old(sessions)[j].(head := sessions[j].head)
    {
      hide PacketsOk, QueueOk, TableOk, SessionsOk, SessionOk, ChainKeysOk, Framed, Kept, Released;
      hide WithoutDebts;
      AcknowledgeStarts(i);
      m := 0;
      NoDebts(bodies);
      if i >= connected {
        return;
      }
      ghost var s, c := sessions[i], chains[sessions[i].id];
      while sessions[i].head.packet != NULL
        invariant Inv() && i < connected <= |sessions| == |old(sessions)|
        invariant forall j :: 0 <= j < |sessions| ==> sessions[j] == old(sessions)[j].(head := sessions[j].head)
        invariant m <= |c| && chains == old(chains)[s.id := c[m..]]
        invariant Released(s.remoteId, |c|, ackId) == m + Released(s.remoteId, |c| - m, ackId)
        invariant queue == Kept(old(queue), states.Keys)
        invariant Framed(old(states), old(bodies), states, bodies)
        invariant bodies == WithoutDebts(old(bodies), c[..m]) && TailKept(old(queue), old(tail), queue, tail)
        decreases |c| - m
      {
        AcknowledgeContinues(i, ackId);
        var l := sessions[i].head;
        var slot := SlotAt(bodies, l);
        if ackId - slot.remoteId > AHEAD {
          return;
        }
        label before:
        ReleaseOldest(i);
        FramedTwice(old(states), old(bodies), old@before(states), old@before(bodies), states, bodies);
        KeptTwice(old(queue), old@before(states).Keys, states.Keys);
        OneMoreDebt(old(bodies), c[..m], c[m]);
        assert c[..m] + [c[m]] == c[..m + 1];
        m := m + 1;
      }
      AcknowledgeEnds(i);
    }

    /** Releases the oldest packet of session `i`. */
    method ReleaseOldest(i: nat)
      requires Inv() && i < connected <= |sessions|
      requires sessions[i].id in chains && chains[sessions[i].id] != [] && sessions[i].head == chains[sessions[i].id][0]
      modifies `next, `prev, `head, `tail, `queue, `states, `bodies, `chains, `sessions
      ensures Inv() && |sessions| == |old(sessions)|
      ensures chains == old(chains)[old(sessions)[i].id := old(chains)[old(sessions)[i].id][1..]]
      ensures queue == Kept(old(queue), states.Keys) && Framed(old(states), old(bodies), states, bodies)
      ensures bodies == WithoutDebts(old(bodies), [old(chains)[old(sessions)[i].id][0]])
      ensures TailKept(old(queue), old(tail), queue, tail)
      ensures forall j :: 0 <= j < |sessions| ==> sessions[j] == old(sessions)[j].(head := sessions[j].head)
    {
      hide PacketsOk, QueueOk, TableOk, SessionsOk, ChainKeysOk, Framed, Kept, IndexOk, WithoutDebts;
      LinkInArena(sessions[i].id, 0);
      var l := sessions[i].head;
      var following := SlotAt(bodies, l).next;
      Disassociate(l.packet, l.slot, sessions[i].id, 0);
      AcknowledgeKeeps(i, old(states), old(bodies), old(chains));
      sessions := sessions[i := sessions[i].(head := following)];
    }

    /** Acknowledges what the comparison lets pass. */
    method Acknowledge(i: nat, ackId: nat)
      requires Inv() && i < |sessions|
      modifies `next, `prev, `head, `tail, `queue, `states, `bodies, `chains, `sessions
      ensures Inv()
      ensures old(sessions)[i].id in old(chains)
      ensures chains == AckedChains(old(chains), old(sessions)[i], i < connected, ackId)
      ensures queue == Kept(old(queue), states.Keys)
      ensures Framed(old(states), old(bodies), states, bodies)
      ensures bodies == AckedBodies(old(bodies), old(chains), old(sessions)[i], i < connected, ackId)
      ensures TailKept(old(queue), old(tail), queue, tail)
      ensures old(Logged()) ==> Logged()
      ensures |sessions| == |old(sessions)|
      ensures forall j :: 0 <= j < |sessions| ==> sessions[j] == old(sessions)[j].(head := sessions[j].head)
    {
      hide PacketsOk, QueueOk, TableOk, SessionsOk, ChainKeysOk, Framed, Kept, Released, Forgotten, Recorded;
      hide WithoutDebts;
      ghost var m := ReleaseAcknowledged(i, ackId);
      LoggedAfterAcknowledge(old(states), old(bodies), old(chains), old(sessions), i, m);
    }

    lemma LoggedAfterAcknowledge(states0: map<Addr, State>, bodies0: map<Addr, Body>, chains0: map<nat, seq<Loc>>,
                                 sessions0: seq<Session>, i: nat, m: nat)
      requires Packets(NULL, {}) && Framed(states0, bodies0, states, bodies)
      requires i < |sessions0| == |sessions| && sessions0[i].id in chains0 && m <= |chains0[sessions0[i].id]|
      requires chains == Forgotten(chains0, sessions0[i].id, m)
      requires forall j :: 0 <= j < |sessions| ==> sessions[j] == sessions0[j].(head := sessions[j].head)
      ensures Recorded(states0, chains0, sessions0, connected, sent, since, history) ==> Logged()
    {
      hide Recorded, PacketsOk, Framed;
      DescendsSame(sessions0, connected, sessions);
      LoggedAfterRemoval(states0, bodies0, chains0, sessions0, connected, sent);
    }


    lemma AcknowledgeStarts(i: nat)
      requires Inv() && i < |sessions|
      ensures sessions[i].id in chains && (i < connected ==> connected <= |sessions|)
      ensures chains == chains[sessions[i].id := chains[sessions[i].id][0..]]
      ensures queue == Kept(queue, states.Keys)
      ensures Framed(states, bodies, states, bodies)
    {
      hide QueueOk, RefsOk, OrderOk, ChainsOk, BirthsOk;
      assert SessionOk(states, bodies, chains, {}, sessions[i], i < connected);
      KeptAll(queue, states.Keys);
    }

    lemma AcknowledgeContinues(i: nat, ackId: nat)
      requires Inv() && i < connected <= |sessions| && sessions[i].head.packet != NULL
      ensures var s := sessions[i]; s.id in chains && var c := chains[s.id];
        && c != [] && s.head == c[0]
        && s.head.packet in bodies && s.head.slot < |bodies[s.head.packet].slots|
        && SlotAt(bodies, s.head).remoteId == FirstId(s.remoteId, |c|)
        && Released(s.remoteId, |c|, ackId)
             == if ackId - SlotAt(bodies, s.head).remoteId > AHEAD then 0 else 1 + Released(s.remoteId, |c| - 1, ackId)
    {
      hide QueueOk, TableOk, PacketsOk;
      assert SessionOk(states, bodies, chains, {}, sessions[i], true);
      assert chains[sessions[i].id][0].packet in bodies;
    }

    lemma AcknowledgeEnds(i: nat)
      requires Inv() && i < connected <= |sessions| && sessions[i].head.packet == NULL
      ensures sessions[i].id in chains && chains[sessions[i].id] == []
    {
    }

    /** After the oldest link of session `i` is gone, moving its head on restores the records. */
    lemma AcknowledgeKeeps(i: nat, states0: map<Addr, State>, bodies0: map<Addr, Body>, chains0: map<nat, seq<Loc>>)
      requires Packets(NULL, {}) && Table() && i < connected <= |sessions|
      requires SessionsOk(states0, bodies0, chains0, {}, sessions, connected) && ChainKeysOk(sessions, chains0)
      requires sessions[i].id in chains0 && chains0[sessions[i].id] != []
      requires chains == chains0[sessions[i].id := Without(chains0[sessions[i].id], 0)]
      requires Framed(states0, bodies0, states, bodies)
      ensures sessions[i].head.packet in bodies0 && sessions[i].head.slot < |bodies0[sessions[i].head.packet].slots|
      ensures var sessions' := sessions[i := sessions[i].(head := SlotAt(bodies0, sessions[i].head).next)];
        && SessionsOk(states, bodies, chains, {}, sessions', connected)
        && ChainKeysOk(sessions', chains)
        && TableOk(sessions', connected, lookup[..])
      ensures Without(chains0[sessions[i].id], 0) == chains0[sessions[i].id][1..]
    {
      hide SessionsOk, RefsOk, OrderOk, ChainsOk, BirthsOk, Framed, TableOk;
      var s := sessions[i];
      TableDistinct(sessions, connected, lookup[..]);
      assert Without(chains0[s.id], 0) == chains0[s.id][1..];
      SessionsAcknowledged(states0, bodies0, chains0, states, bodies, sessions, connected, i);
      var sessions' := sessions[i := s.(head := SlotAt(bodies0, s.head).next)];
      TableSameIds(sessions, sessions', connected, lookup[..]);
      ChainKeysSame(sessions, sessions', chains0, chains);
    }

    // -------------------------------------------------------------- packets for one session

    /** Sends a payload to session `i` in a packet made for that session alone, and queues the packet. */
    method SendAlone(i: nat, chunk: Payload, remoteId: nat, now: Timespec) returns (p: Addr)
      requires Queue() && Packets(NULL, {}) && i < |sessions|
      modifies `next, `prev, `head, `tail, `queue, `states, `bodies, `births, `clock, `sent
      ensures Queue() && Packets(p, {}) && Youngest(states, births, p)
      ensures p != NULL && p !in old(states) && p !in old(bodies) && p !in old(queue)
      ensures states == old(states)[p := State(RESENDS, false, now, chunk)]
      ensures p in bodies && bodies == old(bodies)[p := bodies[p]]
      ensures bodies[p].remaining == 1 == |bodies[p].slots|
      ensures var slot := bodies[p].slots[0];
        slot.owner == sessions[i].id && slot.index == 0 && slot.remoteId == remoteId % 0x100
      ensures queue == old(queue) + [p]
      ensures sent == old(sent) + [Data(sessions[i].peer, sessions[i].wireId, remoteId, chunk)]
    {
      hide PacketsOk, QueueOk, Youngest;
      NothingNew();
      p := Alloc(1, chunk);
      sent := sent + [Data(sessions[i].peer, sessions[i].wireId, remoteId, chunk)];
      ghost var slot := Slot(sessions[i].id, bodies[p].slots[0].next, 0, remoteId % 0x100);
      ChunkCreated(p, State(RESENDS, false, now, chunk), slot);
      Enqueue(p, false, now);
      bodies := WithSlot(bodies, Loc(p, 0), SlotAt(bodies, Loc(p, 0)).(
        owner := sessions[i].id, index := 0, remoteId := remoteId % 0x100));
    }

    lemma NothingNew()
      requires Packets(NULL, {})
      ensures states.Keys == bodies.Keys
    {
    }

    /** The state a new single-slot packet will be in once it is queued and its slot is filled in. */
    lemma ChunkCreated(p: Addr, state: State, slot: Slot)
      requires p in states && p in bodies && p !in queue && |bodies[p].slots| == 1
      requires PacketsOk(states, bodies, queue, chains, births, clock, p, {})
      requires Youngest(states, births, p) && state.resends == RESENDS
      ensures PacketsOk(states[p := state], WithSlot(bodies, Loc(p, 0), slot), queue + [p], chains, births, clock, p,
                        {})
      ensures Youngest(states[p := state], births, p)
    {
      hide RefsOk, OrderOk, BirthsOk, ChainsOk;
      PacketsEnqueued(states, bodies, queue, chains, births, clock, p, {}, state);
      RefsSlotWritten(bodies, chains, p, {}, 0, slot);
    }

    // -------------------------------------------------------------- dumping the cached state

    /** Sends the cached state to a session that owes nothing, chunk by chunk, with remote ids from one. */
    method CacheDump(i: nat, now: Timespec)
      requires Queue() && Packets(NULL, {}) && Table() && Config()
      requires i < connected && i < |sessions| && sessions[i].id in chains && chains[sessions[i].id] == []
      requires sessions[i].wireId == sessions[i].id && sessions[i].head.slot == 0
      requires OthersOk(states, bodies, chains, {}, sessions, connected, i) && ChainKeysOk(sessions, chains)
      modifies `next, `prev, `head, `tail, `queue, `states, `bodies, `births, `clock, `sent, `chains, `sessions
      ensures Queue() && Packets(NULL, {}) && Table() && Config() && Sessions({})
      ensures sessions[i].id in chains && chains == old(chains)[sessions[i].id := chains[sessions[i].id]]
      ensures |chains[sessions[i].id]| == |cache| && Dumped(states, bodies, chains[sessions[i].id], cache)
      ensures sessions == old(sessions)[i := sessions[i]]
      ensures sessions[i] == old(sessions)[i].(head := sessions[i].head, tail := sessions[i].tail, remoteId := |cache|)
      ensures queue == old(queue) + Addresses(chains[sessions[i].id])
      ensures sent == old(sent) + ChunkDatagrams(old(sessions)[i], cache, |cache|)
      ensures Extends(old(states), states) && OthersKept(old(bodies), NULL, bodies)
      ensures states == WithChunks(old(states), Addresses(chains[sessions[i].id]), cache, now)
    {
      hide PacketsOk, QueueOk, TableOk, SessionsOk, ChainKeysOk, OthersOk, Strung, Dumped, Addresses, ChunkDatagrams;
      hide WithChunks, Extends;
      NullFree();
      var p := DumpChunks(i, now);
      DumpLast(i, p, old(sessions), old(chains));
    }

    /** Sends the chunks; the chain does not end yet. */
    method DumpChunks(i: nat, now: Timespec) returns (p: Addr)
      requires Queue() && Packets(NULL, {}) && Table() && Config()
      requires i < connected && i < |sessions| && sessions[i].id in chains && chains[sessions[i].id] == []
      requires sessions[i].wireId == sessions[i].id && sessions[i].head.slot == 0
      requires OthersOk(states, bodies, chains, {}, sessions, connected, i)
      modifies `next, `prev, `head, `tail, `queue, `states, `bodies, `births, `clock, `sent, `chains, `sessions
      ensures Queue() && Packets(NULL, {})
      ensures |sessions| == |old(sessions)|
      ensures sessions == old(sessions)[i := old(sessions)[i].(head := sessions[i].head)]
      ensures var o := sessions[i].id;
        && o in chains && |chains[o]| == |cache| && chains == old(chains)[o := chains[o]]
        && chains[o][|cache| - 1] == Loc(p, 0) && chains[o][0] == sessions[i].head
        && Strung(bodies, chains[o]) && Dumped(states, bodies, chains[o], cache)
        && queue == old(queue) + Addresses(chains[o])
        && states == WithChunks(old(states), Addresses(chains[o]), cache, now)
      ensures OthersOk(states, bodies, chains, {}, sessions, connected, i)
      ensures sent == old(sent) + ChunkDatagrams(old(sessions)[i], cache, |cache|)
      ensures Extends(old(states), states) && OthersKept(old(bodies), NULL, bodies) && p !in old(bodies)
    {
      hide PacketsOk, QueueOk, TableOk, SessionsOk, ChainKeysOk, OthersOk, Strung, Dumped, Youngest, Addresses;
      hide DistinctIds, ChunkDatagrams, WithChunks;
      ghost var o := sessions[i].id;
      NullFree();
      p := DumpFirst(i, now);
      AddressesLength(chains[o]);
      var k := 1;
      while k < |cache|
        modifies `next, `prev, `head, `tail, `queue, `states, `bodies, `births, `clock, `sent, `chains
        invariant 1 <= k <= |cache| && Queue() && Packets(NULL, {})
        invariant o in chains && |chains[o]| == k && chains[o][k - 1] == Loc(p, 0) && chains[o][0] == sessions[i].head
        invariant chains == old(chains)[o := chains[o]]
        invariant Strung(bodies, chains[o]) && Dumped(states, bodies, chains[o], cache)
        invariant OthersOk(states, bodies, chains, {}, sessions, connected, i)
        invariant queue == old(queue) + Addresses(chains[o])
        invariant sent == old(sent) + ChunkDatagrams(old(sessions)[i], cache, k)
        invariant Extends(old(states), states) && OthersKept(old(bodies), NULL, bodies)
        invariant p !in old(bodies) && NULL !in old(bodies)
        invariant |Addresses(chains[o])| == k && states == WithChunks(old(states), Addresses(chains[o]), cache, now)
      {
        label before:
        var following := DumpNext(i, p, k, now);
        WithChunksMore(old(states), Addresses(old@before(chains)[o]), following, cache, now);
        ChunkDatagramsMore(old(sessions)[i], cache, k);
        AppendAssociative(old(sent), ChunkDatagrams(old(sessions)[i], cache, k),
                          Data(sessions[i].peer, o, k + 1, cache[k]));
        AppendAssociative(old(queue), Addresses(old@before(chains)[o]), following);
        p := following;
        k := k + 1;
      }
    }

    lemma NullFree()
      requires Packets(NULL, {})
      ensures NULL !in bodies
    {
    }

    lemma AddressesLength(c: seq<Loc>)
      ensures |Addresses(c)| == |c|
    {
    }

    /** Sends the first chunk and makes it the head of the session's chain. */
    method DumpFirst(i: nat, now: Timespec) returns (p: Addr)
      requires Queue() && Packets(NULL, {}) && Table() && cache != []
      requires i < |sessions| && sessions[i].id in chains && chains[sessions[i].id] == [] && sessions[i].head.slot == 0
      requires OthersOk(states, bodies, chains, {}, sessions, connected, i)
      modifies `next, `prev, `head, `tail, `queue, `states, `bodies, `births, `clock, `sent, `chains, `sessions
      ensures Queue() && Packets(NULL, {}) && DistinctIds(sessions)
      ensures sessions == old(sessions)[i := old(sessions)[i].(head := Loc(p, 0))]
      ensures chains == old(chains)[sessions[i].id := [Loc(p, 0)]]
      ensures Strung(bodies, [Loc(p, 0)]) && Dumped(states, bodies, [Loc(p, 0)], cache)
      ensures OthersOk(states, bodies, chains, {}, sessions, connected, i)
      ensures queue == old(queue) + Addresses([Loc(p, 0)])
      ensures sent == old(sent) + ChunkDatagrams(old(sessions)[i], cache, 1)
      ensures Extends(old(states), states) && OthersKept(old(bodies), NULL, bodies) && p !in old(bodies)
      ensures states == WithChunks(old(states), Addresses([Loc(p, 0)]), cache, now)
    {
      hide PacketsOk, QueueOk, TableOk, OthersOk, Strung, Dumped, Youngest, Addresses, DistinctIds, ChunkDatagrams;
      hide WithChunks;
      TableDistinct(sessions, connected, lookup[..]);
      p := SendAlone(i, cache[0], 1, now);
      sessions := sessions[i := sessions[i].(head := Loc(p, sessions[i].head.slot))];
      DumpStarts(i, p, old(states), old(bodies), old(sessions));
      ChunkDatagramsStart(old(sessions)[i]);
      FirstChunk(old(states), p, cache, now);
      chains := chains[sessions[i].id := [Loc(p, 0)]];
    }

    /** Marks the end of the dumped chain in the last packet and in the session. */
    method DumpLast(i: nat, p: Addr, ghost sessions0: seq<Session>, ghost chains0: map<nat, seq<Loc>>)
      requires Packets(NULL, {}) && TableOk(sessions0, connected, lookup[..]) && ChainKeysOk(sessions0, chains0)
      requires Config()
      requires i < connected && i < |sessions| == |sessions0| && sessions[i].id in chains && chains.Keys <= chains0.Keys
      requires OthersOk(states, bodies, chains, {}, sessions, connected, i)
      requires sessions == sessions0[i := sessions[i]]
      requires sessions[i].id == sessions0[i].id && sessions[i].wireId == sessions[i].id == sessions0[i].wireId
      requires var c := chains[sessions[i].id];
        && |c| == |cache| && c[|c| - 1] == Loc(p, 0) && c[0] == sessions[i].head
        && Strung(bodies, c) && Dumped(states, bodies, c, cache)
      modifies `bodies, `sessions
      ensures Packets(NULL, {}) && Table() && Sessions({}) && Config()
      ensures Dumped(states, bodies, chains[sessions[i].id], cache)
      ensures sessions == old(sessions)[i := old(sessions)[i].(tail := Loc(p, 0), remoteId := |cache|)]
      ensures OthersKept(old(bodies), p, bodies)
    {
      hide PacketsOk, TableOk, SessionsOk, ChainKeysOk, OthersOk, Strung, Dumped;
      ChainKeysSame(sessions0, sessions0, chains0, chains);
      DumpEnds(i, p, sessions0);
      bodies := WithSlot(bodies, Loc(p, 0),
                         SlotAt(bodies, Loc(p, 0)).(next := Loc(NULL, SlotAt(bodies, Loc(p, 0)).next.slot)));
      sessions := sessions[i := sessions[i].(tail := Loc(p, 0), remoteId := |cache|)];
    }

    /** Sends chunk `k` to session `i` and links its packet behind the packet `last` of chunk `k - 1`. */
    method DumpNext(i: nat, last: Addr, k: nat, now: Timespec) returns (p: Addr)
      requires Queue() && Packets(NULL, {}) && i < |sessions| && sessions[i].id in chains && DistinctIds(sessions)
      requires var c := chains[sessions[i].id];
        0 < |c| == k < |cache| && c[k - 1] == Loc(last, 0) && Strung(bodies, c) && Dumped(states, bodies, c, cache)
      requires k < 0xff && OthersOk(states, bodies, chains, {}, sessions, connected, i)
      modifies `next, `prev, `head, `tail, `queue, `states, `bodies, `births, `clock, `sent, `chains
      ensures Queue() && Packets(NULL, {})
      ensures chains == old(chains)[sessions[i].id := old(chains)[sessions[i].id] + [Loc(p, 0)]]
      ensures Strung(bodies, chains[sessions[i].id]) && Dumped(states, bodies, chains[sessions[i].id], cache)
      ensures OthersOk(states, bodies, chains, {}, sessions, connected, i)
      ensures queue == old(queue) + [p]
      ensures Addresses(chains[sessions[i].id]) == Addresses(old(chains)[sessions[i].id]) + [p]
      ensures sent == old(sent) + [Data(sessions[i].peer, sessions[i].wireId, k + 1, cache[k])]
      ensures Extends(old(states), states) && states == old(states)[p := State(RESENDS, false, now, cache[k])]
      ensures OthersKept(old(bodies), last, bodies) && last in bodies && p !in old(bodies)
    {
      hide PacketsOk, QueueOk, OthersOk, Strung, Dumped, Youngest, Addresses, DistinctIds;
      p := SendAlone(i, cache[k], k + 1, now);
      DumpContinues(i, last, p, old(states), old(bodies));
      bodies := WithSlot(bodies, Loc(last, 0), SlotAt(bodies, Loc(last, 0)).(next := Loc(p, 0)));
      chains := chains[sessions[i].id := chains[sessions[i].id] + [Loc(p, 0)]];
    }

    lemma DumpStarts(i: nat, p: Addr, states0: map<Addr, State>, bodies0: map<Addr, Body>, sessions0: seq<Session>)
      requires Packets(p, {}) && Youngest(states, births, p) && p != NULL && p in queue
      requires i < |sessions0| == |sessions| && sessions0[i].id in chains && chains[sessions0[i].id] == []
      requires cache != []
      requires p in states && p !in states0 && p !in bodies0 && states == states0[p := states[p]]
      requires p in bodies && bodies == bodies0[p := bodies[p]]
      requires !states[p].closing && states[p].payload == cache[0]
      requires bodies[p].remaining == 1 == |bodies[p].slots|
      requires var slot := bodies[p].slots[0]; slot.owner == sessions0[i].id && slot.index == 0 && slot.remoteId == 1
      requires OthersOk(states0, bodies0, chains, {}, sessions0, connected, i) && DistinctIds(sessions0)
      requires sessions == sessions0[i := sessions[i]] && sessions[i].id == sessions0[i].id
      ensures var chains' := chains[sessions[i].id := [Loc(p, 0)]];
        && PacketsOk(states, bodies, queue, chains', births, clock, NULL, {})
        && OthersOk(states, bodies, chains', {}, sessions, connected, i)
      ensures Strung(bodies, [Loc(p, 0)]) && Dumped(states, bodies, [Loc(p, 0)], cache) && DistinctIds(sessions)
      ensures Addresses([Loc(p, 0)]) == [p]
    {
      hide RefsOk, OrderOk, BirthsOk, ChainsOk, Youngest, SessionOk;
      var o := sessions[i].id;
      assert Addresses([Loc(p, 0)]) == [p];
      assert [Loc(p, 0)][0] == Loc(p, 0);
      NothingOwedUnchained(bodies, chains, p);
      OthersIgnore(states0, bodies0, chains, states, bodies, sessions0, connected, i, p);
      assert chains[o] + [Loc(p, 0)] == [Loc(p, 0)];
      ChunkJoined(states, bodies, bodies, queue, chains, births, clock, p, o);
      OthersUnchained(states, bodies, chains, {}, chains[o := [Loc(p, 0)]], sessions0, connected, i);
    }

    lemma FirstChunk(states0: map<Addr, State>, p: Addr, chunks: seq<Payload>, now: Timespec)
      requires chunks != []
      ensures Addresses([Loc(p, 0)]) == [p]
      ensures WithChunks(states0, [p], chunks, now) == states0[p := State(RESENDS, false, now, chunks[0])]
    {
      assert [p][..0] == [];
    }

    lemma ChunkDatagramsStart(s: Session)
      requires cache != []
      ensures ChunkDatagrams(s, cache, 1) == [Data(s.peer, s.wireId, 1, cache[0])]
    {
    }

    lemma DumpContinues(i: nat, last: Addr, p: Addr, states0: map<Addr, State>, bodies0: map<Addr, Body>)
      requires Packets(p, {}) && Youngest(states, births, p) && p != NULL && p in queue
      requires i < |sessions| && sessions[i].id in chains && DistinctIds(sessions)
      requires p in states && p !in states0 && p !in bodies0 && states == states0[p := states[p]]
      requires p in bodies && bodies == bodies0[p := bodies[p]]
      requires bodies[p].remaining == 1 == |bodies[p].slots|
      requires OthersOk(states0, bodies0, chains, {}, sessions, connected, i)
      requires var c := chains[sessions[i].id];
        && 0 < |c| < |cache| && c[|c| - 1] == Loc(last, 0)
        && Strung(bodies0, c) && Dumped(states0, bodies0, c, cache)
        && !states[p].closing && states[p].payload == cache[|c|]
        && var slot := bodies[p].slots[0]; slot.owner == sessions[i].id && slot.index == 0 && slot.remoteId == |c| + 1
      ensures last in bodies && |bodies[last].slots| > 0
      ensures var c := chains[sessions[i].id] + [Loc(p, 0)];
        var chains' := chains[sessions[i].id := c];
        var bodies' := WithSlot(bodies, Loc(last, 0), SlotAt(bodies, Loc(last, 0)).(next := Loc(p, 0)));
        && PacketsOk(states, bodies', queue, chains', births, clock, NULL, {})
        && OthersOk(states, bodies', chains', {}, sessions, connected, i)
        && Strung(bodies', c) && Dumped(states, bodies', c, cache)
        && Addresses(c) == Addresses(chains[sessions[i].id]) + [p]
    {
      hide RefsOk, OrderOk, BirthsOk, Youngest, SessionOk, OthersOk, Strung, Dumped, Addresses, SameIndex;
      var o := sessions[i].id;
      var c := chains[o];
      LastLink(p, last, c, i, states0, bodies0);
      var slot := SlotAt(bodies, Loc(last, 0)).(next := Loc(p, 0));
      var bodies' := WithSlot(bodies, Loc(last, 0), slot);
      NothingOwedUnchained(bodies, chains, p);
      OthersIgnore(states0, bodies0, chains, states, bodies, sessions, connected, i, p);
      OthersRelinked(states, bodies, chains, {}, sessions, connected, i, p, {}, Loc(last, 0), slot);
      RelinkedSameIndex(bodies, Loc(last, 0), slot);
      ChunkJoined(states, bodies, bodies', queue, chains, births, clock, p, o);
      OthersUnchained(states, bodies', chains, {}, chains[o := c + [Loc(p, 0)]], sessions, connected, i);
      DumpedMore(states0, bodies0, states, bodies', c, p, cache);
      AddressesMore(c, Loc(p, 0));
    }

    lemma LastLink(p: Addr, last: Addr, c: seq<Loc>, i: nat, states0: map<Addr, State>, bodies0: map<Addr, Body>)
      requires Packets(p, {}) && i < |sessions| && sessions[i].id in chains && c == chains[sessions[i].id]
      requires p in bodies && p !in bodies0 && bodies == bodies0[p := bodies[p]]
      requires 0 < |c| && c[|c| - 1] == Loc(last, 0)
      ensures last != p && last in bodies0 && last in bodies && |bodies[last].slots| > 0
      ensures SlotAt(bodies, Loc(last, 0)).owner == sessions[i].id
      ensures forall j :: 0 <= j < |c| - 1 ==> c[j].packet != last
    {
    }

    lemma DumpEnds(i: nat, p: Addr, sessions0: seq<Session>)
      requires Packets(NULL, {}) && TableOk(sessions0, connected, lookup[..]) && ChainKeysOk(sessions0, chains)
      requires i < connected && i < |sessions| == |sessions0| && sessions[i].id in chains && Config()
      requires OthersOk(states, bodies, chains, {}, sessions, connected, i)
      requires sessions == sessions0[i := sessions[i]]
      requires sessions[i].id == sessions0[i].id && sessions[i].wireId == sessions[i].id == sessions0[i].wireId
      requires var c := chains[sessions[i].id];
        && |c| == |cache| && c[|c| - 1] == Loc(p, 0) && c[0] == sessions[i].head
        && Strung(bodies, c) && Dumped(states, bodies, c, cache)
      ensures p in bodies && |bodies[p].slots| > 0
      ensures var slot := SlotAt(bodies, Loc(p, 0)).(next := Loc(NULL, SlotAt(bodies, Loc(p, 0)).next.slot));
        var bodies' := WithSlot(bodies, Loc(p, 0), slot);
        var sessions' := sessions[i := sessions[i].(tail := Loc(p, 0), remoteId := |cache|)];
        && PacketsOk(states, bodies', queue, chains, births, clock, NULL, {})
        && SessionsOk(states, bodies', chains, {}, sessions', connected)
        && TableOk(sessions', connected, lookup[..]) && ChainKeysOk(sessions', chains)
        && Dumped(states, bodies', chains[sessions[i].id], cache)
    {
      hide RefsOk, OrderOk, BirthsOk, SessionOk, TableOk, ChainKeysOk, SameIndex;
      var o := sessions[i].id;
      var c := chains[o];
      LinkOwed(bodies, chains, o, |c| - 1);
      var slot := SlotAt(bodies, Loc(p, 0)).(next := Loc(NULL, SlotAt(bodies, Loc(p, 0)).next.slot));
      var bodies' := WithSlot(bodies, Loc(p, 0), slot);
      var sessions' := sessions[i := sessions[i].(tail := Loc(p, 0), remoteId := |cache|)];
      TableDistinct(sessions0, connected, lookup[..]);
      assert DistinctIds(sessions);
      OthersRelinked(states, bodies, chains, {}, sessions, connected, i, NULL, {}, Loc(p, 0), slot);
      RelinkedSameIndex(bodies, Loc(p, 0), slot);
      RefsRelinked(bodies, bodies', chains, NULL, {});
      TableSameIds(sessions0, sessions', connected, lookup[..]);
      ChainKeysSame(sessions0, sessions', chains, chains);
      DumpClosed(states, bodies, bodies', c, cache);
      DumpedSessionOk(states, bodies', chains, sessions'[i], cache);
    }

    // -------------------------------------------------------------- the opening handshake

    /** Session `i` is in its opening handshake under the id `clientId`. */
    ghost predicate InOpening(i: nat, clientId: nat)
      reads this
    {
      && connected <= i < |sessions| && sessions[i].wireId == clientId != sessions[i].id
      && sessions[i].id in chains && var c := chains[sessions[i].id];
      && |c| == 1 && sessions[i].head == c[0] && c[0].slot == 0 && c[0].packet != NULL
      && c[0].packet in bodies && |bodies[c[0].packet].slots| == 1
    }

    lemma OpeningSession(clientId: nat)
      requires Inv() && clientId < SERVER_ID && lookup[clientId] != 0
      ensures lookup.Length == ID_COUNT && lookup[clientId] >= 1 && InOpening(lookup[clientId] - 1, clientId)
    {
      hide QueueOk, PacketsOk, TableOk, SessionsOk, ChainKeysOk;
      var i := OpeningRecord(clientId);
      RecordOk(i, {});
      OpeningLink(i);
    }

    lemma OpeningRecord(clientId: nat) returns (i: nat)
      requires Table() && clientId < SERVER_ID && lookup[clientId] != 0
      ensures lookup.Length == ID_COUNT && lookup[clientId] == i + 1
      ensures connected <= i < |sessions| && sessions[i].wireId == clientId != sessions[i].id
    {
      assert Registered(lookup[..], clientId);
      i := lookup[clientId] - 1;
      assert IdsOk(sessions[i], i, i < connected, lookup[..]);
    }

    lemma OpeningLink(i: nat)
      requires connected <= i < |sessions| && sessions[i].wireId != sessions[i].id
      requires SessionOk(states, bodies, chains, {}, sessions[i], false)
      requires Packets(NULL, {})
      ensures InOpening(i, sessions[i].wireId)
    {
    }

    /** Moves session `i` to the end of the connected ones, forgetting the id the client chose. */
    method Promote(i: nat, now: Timespec)
      requires Table() && connected <= i < |sessions| && sessions[i].wireId != sessions[i].id
      modifies `sessions, `connected, `pingStamp, lookup
      ensures Table() && connected == old(connected) + 1
      ensures var c := old(connected);
        sessions == Swapped(old(sessions), i, c)[c := old(sessions)[i].(wireId := old(sessions)[i].id)]
      ensures pingStamp == if old(connected) == 0 then now else old(pingStamp)
    {
      hide TableOk;
      Connected(sessions, connected, lookup[..], i);
      LookupLength();
      assert i == connected ==> Swapped(sessions, i, connected) == sessions;
      var clientId := sessions[i].wireId;
      if i != connected {
        SessionSwap(i);
        LookupSet(sessions[i].wireId, i);
      }
      if connected == 0 {
        pingStamp := now;
      }
      connected := connected + 1;
      LookupClear(clientId);
      sessions := sessions[connected - 1 := sessions[connected - 1].(wireId := sessions[connected - 1].id)];
    }

    lemma LookupLength()
      requires Table()
      ensures lookup.Length == ID_COUNT
    {
    }

    /** Completes an opening handshake: the session joins the connected ones, its handshake packet is
        released and it is sent the cached state. */
    method Connect(clientId: nat, peer: Peer, now: Timespec) returns (done: bool)
      requires Inv() && clientId < SERVER_ID
      modifies `next, `prev, `head, `tail, `queue, `states, `bodies, `births, `clock, `sent, `chains, `sessions,
               `connected, `pingStamp, `history, `since, lookup
      ensures Inv()
      ensures done <==>
        0 < old(lookup[clientId]) <= |old(sessions)| && old(sessions)[old(lookup[clientId]) - 1].peer == peer
      ensures !done ==> unchanged(this) && unchanged(lookup)
      ensures done ==>
        && connected == old(connected) + 1
        && Completed(old(lookup[clientId]) - 1, old(connected), cache, now, old(states), old(bodies), old(queue),
                     old(chains), old(sessions), states, bodies, queue, chains, sessions)
        && sent == old(sent) + ChunkDatagrams(sessions[old(connected)], cache, |cache|)
        && history == old(history)[sessions[old(connected)].id := cache]
        && since == old(since)[sessions[old(connected)].id := |old(sent)|]
        && pingStamp == if old(connected) == 0 then now else old(pingStamp)
      ensures old(Logged()) ==> Logged()
    {
      hide PacketsOk, QueueOk, TableOk, SessionsOk, ChainKeysOk, OthersOk, Dumped, Addresses, ChunkDatagrams, Kept;
      hide Completed, Recorded;
      LookupLength();
      done := false;
      var i := LookupGet(clientId);
      if i == -1 {
        return;
      }
      OpeningSession(clientId);
      if sessions[i].peer != peer {
        return;
      }
      CompleteHandshake(i, now);
      done := true;
    }

    method CompleteHandshake(i: nat, now: Timespec)
      requires Inv() && connected <= i < |sessions| && sessions[i].wireId != sessions[i].id
      requires sessions[i].id in chains && |chains[sessions[i].id]| == 1
      requires sessions[i].head == chains[sessions[i].id][0] && sessions[i].head.slot == 0
      requires sessions[i].head.packet in bodies && |bodies[sessions[i].head.packet].slots| == 1
      modifies `next, `prev, `head, `tail, `queue, `states, `bodies, `births, `clock, `sent, `chains, `sessions,
               `connected, `pingStamp, `history, `since, lookup
      ensures pingStamp == if old(connected) == 0 then now else old(pingStamp)
      ensures Inv() && connected == old(connected) + 1
      ensures Completed(i, old(connected), cache, now, old(states), old(bodies), old(queue), old(chains), old(sessions),
                        states, bodies, queue, chains, sessions)
      ensures sent == old(sent) + ChunkDatagrams(sessions[old(connected)], cache, |cache|)
      ensures history == old(history)[sessions[old(connected)].id := cache]
      ensures since == old(since)[sessions[old(connected)].id := |old(sent)|]
      ensures old(Logged()) ==> Logged()
    {
      hide PacketsOk, QueueOk, TableOk, SessionsOk, ChainKeysOk, OthersOk, Dumped, Addresses, ChunkDatagrams, Kept;
      hide Swapped;
      hide Extends, ChainsLogged, SessionsLogged, SentLogged;
      ghost var o := sessions[i].id;
      ghost var states1, chains1 := HandshakeToDump(i, now);
      history, since := history[o := cache], since[o := |old(sent)|];
      LoggedAfterDump(i, old(connected), states1, chains1, old(sessions), old(sent), old(since), old(history));
    }

    /** Ends the handshake of session `i` and sends it the cached state; in between packets and chains
        were `states1` and `chains1`. */
    method HandshakeToDump(i: nat, now: Timespec)
      returns (ghost states1: map<Addr, State>, ghost chains1: map<nat, seq<Loc>>)
      requires Inv() && connected <= i < |sessions| && sessions[i].wireId != sessions[i].id
      requires sessions[i].id in chains && |chains[sessions[i].id]| == 1
      requires sessions[i].head == chains[sessions[i].id][0] && sessions[i].head.slot == 0
      requires sessions[i].head.packet in bodies && |bodies[sessions[i].head.packet].slots| == 1
      modifies `next, `prev, `head, `tail, `queue, `states, `bodies, `births, `clock, `sent, `chains, `sessions,
               `connected, `pingStamp, lookup
      ensures pingStamp == if old(connected) == 0 then now else old(pingStamp)
      ensures Inv() && connected == old(connected) + 1
      ensures Completed(i, old(connected), cache, now, old(states), old(bodies), old(queue), old(chains), old(sessions),
                        states, bodies, queue, chains, sessions)
      ensures sent == old(sent) + ChunkDatagrams(sessions[old(connected)], cache, |cache|)
      ensures var o := old(sessions)[i].id;
        o in chains && o in chains1 && chains == chains1[o := chains[o]] && Extends(states1, states)
      ensures ChainsLogged(old(states), old(chains), history) ==> ChainsLogged(states1, chains1, history)
    {
      hide PacketsOk, QueueOk, TableOk, SessionsOk, ChainKeysOk, OthersOk, Dumped, Addresses, ChunkDatagrams, Kept;
      hide Swapped;
      hide Extends, ChainsLogged, WithChunks;
      ghost var s := sessions[i];
      NullFree();
      EndHandshake(i, now);
      states1, chains1 := states, chains;
      CacheDump(connected - 1, now);
      SameDatagrams(sessions[connected - 1], s.(wireId := s.id));
      assert sessions == Swapped(old(sessions), i, old(connected))[old(connected) := sessions[old(connected)]];
      assert chains == old(chains)[s.id := chains[s.id]];
    }

    lemma LoggedAfterHandshake(p: Addr, o: nat, states0: map<Addr, State>, chains0: map<nat, seq<Loc>>)
      requires Packets(NULL, {}) && states == states0 - {p} && o in chains0 && chains == chains0[o := []]
      ensures ChainsLogged(states0, chains0, history) ==> ChainsLogged(states, chains, history)
    {
      hide PacketsOk, ChainsLogged;
      LinksAllocated();
      ShortenedKept(states0, chains0, states, chains);
      if ChainsLogged(states0, chains0, history) {
        ChainsKept(states0, chains0, history, states, chains);
      }
    }

    lemma LoggedAfterDump(i: nat, c: nat, states0: map<Addr, State>, chains0: map<nat, seq<Loc>>,
                          sessions0: seq<Session>,
                          sent0: seq<Datagram>, since0: map<nat, nat>, history0: map<nat, seq<Payload>>)
      requires Table() && Config() && connected == c + 1 && c <= i < |sessions0| == |sessions|
      requires Extends(states0, states)
      requires sessions == Swapped(sessions0, i, c)[c := sessions[c]]
      requires var s := sessions[c];
        && s.id == s.wireId == sessions0[i].id && s.peer == sessions0[i].peer && s.remoteId == |cache|
        && s.id in chains && s.id in chains0 && chains == chains0[s.id := chains[s.id]]
        && |chains[s.id]| == |cache| && Dumped(states, bodies, chains[s.id], cache)
        && sent == sent0 + ChunkDatagrams(s, cache, |cache|)
        && history == history0[s.id := cache] && since == since0[s.id := |sent0|]
      ensures (ChainsLogged(states0, chains0, history0) && SessionsLogged(sessions0, c, history0)
               && SentLogged(sent0, since0, sessions0, c, history0)) ==> Logged()
    {
      hide TableOk, Swapped, Dumped, ChainsLogged, SessionsLogged, SentLogged, DistinctIds;
      TableDistinct(sessions, connected, lookup[..]);
      if ChainsLogged(states0, chains0, history0) && SessionsLogged(sessions0, c, history0)
         && SentLogged(sent0, since0, sessions0, c, history0) {
        StartedChains(states0, chains0, history0, cache, sessions[c].id, states, bodies, chains);
        StartedSent(sent0, since0, sessions0, c, history0, cache, sent, sessions, i);
        StartedSessions(sessions0, c, history0, cache, sessions, i);
      }
    }

    /** Makes session `i` the last connected one and releases its handshake packet. */
    method EndHandshake(i: nat, now: Timespec)
      requires Inv() && connected <= i < |sessions| && sessions[i].wireId != sessions[i].id
      requires sessions[i].id in chains && |chains[sessions[i].id]| == 1
      requires sessions[i].head == chains[sessions[i].id][0]
      requires sessions[i].head.packet in bodies && |bodies[sessions[i].head.packet].slots| == 1
      modifies `next, `prev, `head, `tail, `queue, `states, `bodies, `chains, `sessions, `connected, `pingStamp, lookup
      ensures pingStamp == if old(connected) == 0 then now else old(pingStamp)
      ensures Queue() && Packets(NULL, {}) && Table() && Config()
      ensures connected == old(connected) + 1 <= |sessions|
      ensures var c := old(connected); var s := old(sessions)[i];
        && sessions == Swapped(old(sessions), i, c)[c := s.(wireId := s.id)]
        && chains == old(chains)[s.id := []]
        && queue == Kept(old(queue), old(states).Keys - {s.head.packet}) && states == old(states) - {s.head.packet}
        && sessions[c] == s.(wireId := s.id) && bodies == old(bodies) - {s.head.packet}
        && OthersOk(states, bodies, chains, {}, sessions, connected, c)
      ensures ChainKeysOk(sessions, chains)
      ensures ChainsLogged(old(states), old(chains), history) ==> ChainsLogged(states, chains, history)
    {
      hide PacketsOk, QueueOk, TableOk, SessionsOk, ChainKeysOk, OthersOk, Kept, ChainsLogged;
      ghost var s := sessions[i];
      Promote(i, now);
      ConnectReleases(i, old(connected), old(sessions));
      var p := sessions[connected - 1].head.packet;
      ghost var j :| 0 <= j < |queue| && queue[j] == p;
      Release(p, j);
      chains := chains[s.id := []];
      LoggedAfterHandshake(p, s.id, old(states), old(chains));
    }

    lemma SameDatagrams(s: Session, t: Session)
      requires s.peer == t.peer && s.wireId == t.wireId
      ensures ChunkDatagrams(s, cache, |cache|) == ChunkDatagrams(t, cache, |cache|)
    {
    }

    lemma ConnectReleases(i: nat, c: nat, sessions0: seq<Session>)
      requires Queue() && Packets(NULL, {}) && Table()
      requires SessionsOk(states, bodies, chains, {}, sessions0, c) && ChainKeysOk(sessions0, chains)
      requires c <= i < |sessions0| && connected == c + 1
      requires sessions == Swapped(sessions0, i, c)[c := sessions0[i].(wireId := sessions0[i].id)]
      requires var s := sessions0[i];
        && s.id in chains && |chains[s.id]| == 1 && s.head == chains[s.id][0]
        && s.head.packet in bodies && |bodies[s.head.packet].slots| == 1
      ensures var s := sessions0[i]; var p := s.head.packet; var chains' := chains[s.id := []];
        && p in queue
        && PacketsOk(states - {p}, bodies - {p}, Kept(queue, states.Keys - {p}), chains', births, clock, NULL, {})
        && OthersOk(states - {p}, bodies - {p}, chains', {}, sessions, connected, c)
        && ChainKeysOk(sessions, chains')
        && forall j :: 0 <= j < |queue| && queue[j] == p ==> Cut(queue, j) == Kept(queue, states.Keys - {p})
    {
      hide RefsOk, OrderOk, BirthsOk, ChainsOk, SessionOk, TableOk, Framed, OthersOk, SessionsOk, ChainKeysOk;
      var s := sessions0[i];
      var p := s.head.packet;
      HandshakeOver(states, bodies, queue, chains, births, clock, s.id);
      OthersConnected(states, bodies, chains, sessions0, c, i, s.(wireId := s.id));
      TableDistinct(sessions, connected, lookup[..]);
      OthersFramed(states, bodies, chains, {}, states - {p}, bodies - {p}, chains[s.id := []], sessions, connected, c);
      ChainKeysPermuted(sessions0, sessions, chains, i, c);
      ChainKeysSame(sessions, sessions, chains, chains[s.id := []]);
    }

    function NextId(): nat
      reads this
    {
      SERVER_ID + (sessionIdLast + 1) % SERVER_ID
    }

    /** A new client is only let in while there is room and the server is not shutting down. */
    predicate HasRoom()
      reads this
    {
      |sessions| != sessionsLimit && !shutting
    }

    /** Starts an opening handshake, repeats the response of one in progress, or rejects the client. A
        server id is handed out without looking whether it is still in use. */
    method Create(clientId: nat, peer: Peer, now: Timespec)
      requires Inv() && clientId < SERVER_ID
      requires lookup[clientId] == 0 && |sessions| < sessionsLimit && !shutting ==> lookup[NextId()] == 0
      modifies `next, `prev, `head, `tail, `queue, `states, `bodies, `births, `clock, `sent, `chains, `sessions,
               `sessionIdLast, `history, lookup
      ensures Inv()
      ensures old(lookup[clientId] == 0 && |sessions| < sessionsLimit && !shutting) ==>
        && Opened(clientId, peer, old(NextId()), old(sessions), old(chains), old(queue), sessions, chains, queue)
        && sent == old(sent) + [Data(peer, clientId, 0, Accept(sessionIdLast))]
        && NewPacket(old(states), old(bodies), queue, Accept(sessionIdLast), now, states, bodies)
        && sessionIdLast == (old(sessionIdLast) + 1) % SERVER_ID && NextId() != old(NextId())
        && history == old(history) - {old(NextId())}
      ensures !old(lookup[clientId] == 0 && |sessions| < sessionsLimit && !shutting) ==>
        && unchanged(`next, `prev, `head, `tail, `queue, `states, `bodies, `births, `clock)
        && unchanged(`chains, `sessions, `sessionIdLast, `history, lookup)
      ensures old(lookup[clientId] == 0 && !(|sessions| < sessionsLimit && !shutting)) ==>
        sent == old(sent) + [Reject(peer, clientId)]
      ensures 0 < old(lookup[clientId]) <= |sessions| ==>
        var s := old(sessions[lookup[clientId] - 1]);
        if s.peer != peer then sent == old(sent)
        else exists payload :: sent == old(sent) + [Data(peer, clientId, 0, payload)]
               && (old(Logged()) ==> s.id >= SERVER_ID && payload == Accept(s.id - SERVER_ID))
      ensures old(Logged()) ==> Logged()
    {
      hide PacketsOk, QueueOk, TableOk, SessionsOk, ChainKeysOk, Recorded;
      LookupLength();
      var i := LookupGet(clientId);
      if i != -1 {
        OpeningSession(clientId);
        HeadAllocated(i);
        OpeningPayload(i);
        if sessions[i].peer != peer {
          return;
        }
        sent := sent + [Data(sessions[i].peer, sessions[i].wireId, 0, states[sessions[i].head.packet].payload)];
        LoggedAfterReply(old(sent));
        return;
      }
      if |sessions| == sessionsLimit || shutting {
        sent := sent + [Reject(peer, clientId)];
        LoggedAfterReply(old(sent));
        return;
      }
      var record: Session := *;
      sessionIdLast := (sessionIdLast + 1) % SERVER_ID;
      OpenSession(record.(remoteId := 0, remoteIdLast := 0, peer := peer, wireId := clientId,
                          id := SERVER_ID + sessionIdLast), now);
    }

    /** The packet of an opening handshake carries the id that was handed out. */
    lemma OpeningPayload(i: nat)
      requires Inv() && connected <= i < |sessions| && sessions[i].wireId != sessions[i].id
      ensures sessions[i].head.packet in states
      ensures Logged() ==>
        sessions[i].id >= SERVER_ID && states[sessions[i].head.packet].payload == Accept(sessions[i].id - SERVER_ID)
    {
      hide QueueOk, PacketsOk, TableOk, SessionsOk, ChainKeysOk, SentLogged;
      OnlyPacket(i);
      if Logged() {
        assert sessions[i].id !in history;
        assert Carries(sessions[i].id, 1, 0, states[chains[sessions[i].id][0].packet], history);
      }
    }

    /** A datagram that carries no data for anyone who is connected. */
    lemma LoggedAfterReply(sent0: seq<Datagram>)
      requires Packets(NULL, {}) && Table() && |sent| == |sent0| + 1 && sent0 <= sent
      requires sent[|sent0|].Data? ==> sent[|sent0|].sessionId < SERVER_ID
      ensures Recorded(states, chains, sessions, connected, sent0, since, history) ==> Logged()
    {
      hide PacketsOk, Recorded;
      LinksAllocated();
      ShortenedKept(states, chains, states, chains);
      DescendsSame(sessions, connected, sessions);
      StillLogged(states, chains, sessions, connected, sent0);
    }

    lemma HeadAllocated(i: nat)
      requires Inv() && i < |sessions| && sessions[i].head.packet != NULL
      ensures sessions[i].head.packet in states && sessions[i].head.packet in bodies
      ensures sessions[i].id in chains && chains[sessions[i].id] != [] && sessions[i].head == chains[sessions[i].id][0]
    {
      hide QueueOk, TableOk;
      assert SessionOk(states, bodies, chains, {}, sessions[i], i < connected);
      LinkOwed(bodies, chains, sessions[i].id, 0);
    }

    /** Registers a new session record under both its ids and sends the accept response. */
    method OpenSession(record: Session, now: Timespec)
      requires Queue() && Packets(NULL, {}) && Table() && Sessions({}) && Config() && HasRoom()
      requires record.wireId < SERVER_ID && record.id == SERVER_ID + sessionIdLast && record.remoteId == 0
      requires lookup[record.wireId] == 0 && lookup[record.id] == 0
      modifies `next, `prev, `head, `tail, `queue, `states, `bodies, `births, `clock, `sent, `chains, `sessions,
               `history, lookup
      ensures Inv()
      ensures |sessions| == |old(sessions)| + 1 && sessions[..|old(sessions)|] == old(sessions)
      ensures var p := sessions[|old(sessions)|].head.packet;
        && sessions[|old(sessions)|] == record.(head := Loc(p, 0), tail := Loc(p, record.tail.slot))
        && chains == old(chains)[record.id := [Loc(p, 0)]]
        && queue == old(queue) + [p]
        && NewPacket(old(states), old(bodies), queue, Accept(sessionIdLast), now, states, bodies)
      ensures record.id !in old(chains)
      ensures sent == old(sent) + [Data(record.peer, record.wireId, 0, Accept(sessionIdLast))]
      ensures history == old(history) - {record.id}
      ensures old(Logged()) ==> Logged()
    {
      hide PacketsOk, QueueOk, TableOk, SessionsOk, ChainKeysOk, Recorded;
      var p := AddSession(record, now);
      history := history - {record.id};
      LoggedAfterOpening(p, old(states), old(chains), old(sessions), old(sent), old(history));
    }

    method AddSession(record: Session, now: Timespec) returns (p: Addr)
      requires Queue() && Packets(NULL, {}) && Table() && Sessions({}) && Config() && HasRoom()
      requires record.wireId < SERVER_ID && record.id == SERVER_ID + sessionIdLast && record.remoteId == 0
      requires lookup[record.wireId] == 0 && lookup[record.id] == 0
      modifies `next, `prev, `head, `tail, `queue, `states, `bodies, `births, `clock, `sent, `chains, `sessions, lookup
      ensures Inv() && connected <= |old(sessions)|
      ensures sessions == old(sessions) + [record.(head := Loc(p, 0), tail := Loc(p, record.tail.slot))]
      ensures chains == old(chains)[record.id := [Loc(p, 0)]] && record.id !in old(chains)
      ensures queue == old(queue) + [p]
      ensures p !in old(states) && states == old(states)[p := State(RESENDS, false, now, Accept(sessionIdLast))]
      ensures OthersKept(old(bodies), NULL, bodies)
      ensures sent == old(sent) + [Data(record.peer, record.wireId, 0, Accept(sessionIdLast))]
    {
      hide PacketsOk, QueueOk, TableOk, SessionsOk, ChainKeysOk, OthersOk, Youngest;
      var i := |sessions|;
      Register(record);
      p := SendAlone(i, Accept(sessionIdLast), 0, now);
      OpenEnds(p, old(states), old(bodies), old(sessions), record, Accept(sessionIdLast), now);
      bodies := WithSlot(bodies, Loc(p, 0),
                         SlotAt(bodies, Loc(p, 0)).(next := Loc(NULL, SlotAt(bodies, Loc(p, 0)).next.slot)));
      sessions := sessions[i := sessions[i].(head := Loc(p, 0), tail := Loc(p, sessions[i].tail.slot))];
      chains := chains[record.id := [Loc(p, 0)]];
    }

    /** Appends a session record and registers both its ids. */
    method Register(record: Session)
      requires Queue() && Packets(NULL, {}) && Table() && Sessions({}) && Config() && HasRoom()
      requires record.wireId < SERVER_ID <= record.id < ID_COUNT && lookup[record.wireId] == 0 && lookup[record.id] == 0
      modifies `chains, `sessions, lookup
      ensures Packets(NULL, {}) && Table() && |sessions| <= sessionsLimit
      ensures sessions == old(sessions) + [record]
      ensures chains == old(chains)[record.id := []] && record.id !in old(chains)
      ensures OthersOk(states, bodies, chains, {}, sessions, connected, |old(sessions)|)
      ensures ChainKeysOk(sessions, chains)
      ensures connected <= |old(sessions)|
    {
      hide PacketsOk, QueueOk, TableOk, SessionsOk, ChainKeysOk, OthersOk;
      OpenStarts(record);
      var i := |sessions|;
      sessions := sessions + [record];
      LookupSet(record.wireId, i);
      LookupSet(record.id, i);
      chains := chains[record.id := []];
    }

    lemma LoggedAfterOpening(p: Addr, states0: map<Addr, State>, chains0: map<nat, seq<Loc>>, sessions0: seq<Session>,
                             sent0: seq<Datagram>, history0: map<nat, seq<Payload>>)
      requires Table() && connected <= |sessions0| && |sessions| == |sessions0| + 1
      requires sessions[..|sessions0|] == sessions0
      requires var s := sessions[|sessions0|];
        && s.wireId != s.id && s.id >= SERVER_ID && chains == chains0[s.id := [Loc(p, 0)]]
        && history == history0 - {s.id}
        && Extends(states0, states) && p in states && !states[p].closing
        && states[p].payload == Accept(s.id - SERVER_ID)
        && sent == sent0 + [Data(s.peer, s.wireId, 0, states[p].payload)] && s.wireId < SERVER_ID
      ensures Recorded(states0, chains0, sessions0, connected, sent0, since, history0) ==> Logged()
    {
      hide Recorded, DistinctIds, TableOk;
      TableDistinct(sessions, connected, lookup[..]);
      ServerIds();
      if Recorded(states0, chains0, sessions0, connected, sent0, since, history0) {
        OpenedRecorded(states0, chains0, sessions0, connected, sent0, since, history0, states, p,
                       sessions[|sessions0|]);
        assert sessions == sessions0 + [sessions[|sessions0|]];
      }
    }

    lemma ServerIds()
      requires Table()
      ensures forall i :: 0 <= i < |sessions| ==> sessions[i].id >= SERVER_ID
    {
    }

    lemma OpenStarts(record: Session)
      requires Packets(NULL, {}) && Table() && Sessions({})
      requires record.wireId < SERVER_ID <= record.id < ID_COUNT && lookup[record.wireId] == 0 && lookup[record.id] == 0
      ensures lookup.Length == ID_COUNT && connected <= |sessions| && record.id !in chains
      ensures PacketsOk(states, bodies, queue, chains[record.id := []], births, clock, NULL, {})
      ensures OthersOk(states, bodies, chains[record.id := []], {}, sessions + [record], connected, |sessions|)
      ensures TableOk(sessions + [record], connected,
                      lookup[..][record.wireId := |sessions| + 1][record.id := |sessions| + 1])
      ensures ChainKeysOk(sessions + [record], chains[record.id := []])
    {
      hide PacketsOk, SessionsOk;
      forall o | o in chains
        ensures o < ID_COUNT && lookup[..][o] != 0
      {
        var j :| 0 <= j < |sessions| && sessions[j].id == o;
        assert IdsOk(sessions[j], j, j < connected, lookup[..]);
      }
      PacketsNewChain(states, bodies, queue, chains, births, clock, record.id);
      OthersAppended(states, bodies, chains, sessions, connected, record);
      Added(sessions, connected, lookup[..], record);
      ChainKeysAppended(sessions, chains, record, []);
    }

    lemma OpenEnds(p: Addr, states0: map<Addr, State>, bodies0: map<Addr, Body>, sessions0: seq<Session>,
                   record: Session, payload: Payload, now: Timespec)
      requires Packets(p, {}) && Youngest(states, births, p) && p != NULL && p in queue && Table()
      requires sessions == sessions0 + [record] && ChainKeysOk(sessions, chains) && connected <= |sessions0|
      requires record.id in chains && chains[record.id] == [] && record.wireId != record.id
      requires p !in states0 && p !in bodies0 && states == states0[p := State(RESENDS, false, now, payload)]
      requires p in bodies && bodies == bodies0[p := bodies[p]]
      requires bodies[p].remaining == 1 == |bodies[p].slots|
      requires var slot := bodies[p].slots[0]; slot.owner == record.id && slot.index == 0 && slot.remoteId == 0
      requires OthersOk(states0, bodies0, chains, {}, sessions, connected, |sessions0|)
      ensures var slot := SlotAt(bodies, Loc(p, 0)).(next := Loc(NULL, SlotAt(bodies, Loc(p, 0)).next.slot));
        var bodies' := WithSlot(bodies, Loc(p, 0), slot);
        var sessions' := sessions[|sessions0| := record.(head := Loc(p, 0), tail := Loc(p, record.tail.slot))];
        var chains' := chains[record.id := [Loc(p, 0)]];
        && PacketsOk(states, bodies', queue, chains', births, clock, NULL, {})
        && SessionsOk(states, bodies', chains', {}, sessions', connected)
        && TableOk(sessions', connected, lookup[..]) && ChainKeysOk(sessions', chains')
    {
      hide PacketsOk, TableOk, Youngest, ChainKeysOk, SessionOk;
      var i := |sessions0|;
      var slot := SlotAt(bodies, Loc(p, 0)).(next := Loc(NULL, SlotAt(bodies, Loc(p, 0)).next.slot));
      var bodies' := WithSlot(bodies, Loc(p, 0), slot);
      var sessions' := sessions[i := record.(head := Loc(p, 0), tail := Loc(p, record.tail.slot))];
      assert chains[record.id] + [Loc(p, 0)] == [Loc(p, 0)];
      RelinkedSameIndex(bodies, Loc(p, 0), slot);
      ChunkJoined(states, bodies, bodies', queue, chains, births, clock, p, record.id);
      TableSameIds(sessions, sessions', connected, lookup[..]);
      ChainKeysSame(sessions, sessions', chains, chains[record.id := [Loc(p, 0)]]);
      OpenOthers(p, states0, bodies0, bodies', i, sessions');
      OpenedSessionOk(states, bodies', chains[record.id := [Loc(p, 0)]], sessions'[i], p);
    }

    lemma OpenOthers(p: Addr, states0: map<Addr, State>, bodies0: map<Addr, Body>, bodies': map<Addr, Body>, i: nat,
                     sessions': seq<Session>)
      requires Packets(p, {}) && Table() && i < |sessions| && p != NULL
      requires sessions[i].id in chains && chains[sessions[i].id] == []
      requires p in states && states == states0[p := states[p]]
      requires p in bodies && bodies == bodies0[p := bodies[p]] && p in bodies' && bodies' == bodies[p := bodies'[p]]
      requires OthersOk(states0, bodies0, chains, {}, sessions, connected, i)
      requires |sessions'| == |sessions| && sessions' == sessions[i := sessions'[i]]
      requires sessions'[i].id == sessions[i].id
      requires p !in states0 && p !in bodies0
      ensures OthersOk(states, bodies', chains[sessions[i].id := [Loc(p, 0)]], {}, sessions', connected, i)
    {
      hide RefsOk, OrderOk, BirthsOk, ChainsOk, SessionOk;
      TableDistinct(sessions, connected, lookup[..]);
      NothingOwedUnchained(bodies, chains, p);
      OthersIgnore(states0, bodies0, chains, states, bodies', sessions, connected, i, p);
      OthersUnchained(states, bodies', chains, {}, chains[sessions[i].id := [Loc(p, 0)]], sessions, connected, i);
    }

    lemma OpenedSessionOk(states1: map<Addr, State>, bodies1: map<Addr, Body>, chains1: map<nat, seq<Loc>>, s: Session,
                          p: Addr)
      requires s.id in chains1 && chains1[s.id] == [Loc(p, 0)] && s.head == Loc(p, 0) && s.tail.packet == p != NULL
      requires p in states1 && !states1[p].closing && s.wireId != s.id
      requires p in bodies1 && |bodies1[p].slots| == 1 && bodies1[p].slots[0].remoteId == 0
      requires bodies1[p].slots[0].next.packet == NULL
      ensures SessionOk(states1, bodies1, chains1, {}, s, false)
    {
    }

    // -------------------------------------------------------------- the closing handshake

    /** Removes a session that is not connected and has given up its packet. */
    method Terminate(i: nat)
      requires lookup.Length == ID_COUNT && i < |sessions| && sessions[i].id < ID_COUNT
      requires sessions[|sessions| - 1].id < ID_COUNT && sessions[|sessions| - 1].wireId < ID_COUNT
      modifies `sessions, lookup
      ensures sessions == Vacated(old(sessions), i)
      ensures lookup[..] == VacatedLookup(old(sessions), old(lookup[..])[old(sessions)[i].id := 0], i)
    {
      LookupClear(sessions[i].id);
      SessionRelease(i);
    }

    /** Removes a session at the client's request, whatever it still owes. */
    method Closing(i: nat)
      requires Inv() && i < |sessions|
      modifies `next, `prev, `head, `tail, `queue, `states, `bodies, `chains, `sessions, `connected, `sent, lookup
      ensures Inv()
      ensures sent == old(sent) + [ClosedReply(old(sessions)[i].peer, old(sessions)[i].id)]
      ensures chains == old(chains) - {old(sessions)[i].id}
      ensures queue == Kept(old(queue), states.Keys)
      ensures Framed(old(states), old(bodies), states, bodies)
      ensures old(sessions)[i].id in old(chains)
      ensures bodies == WithoutDebts(old(bodies), old(chains)[old(sessions)[i].id])
      ensures TailKept(old(queue), old(tail), queue, tail)
      ensures i >= old(connected) ==> connected == old(connected) && sessions == Vacated(old(sessions), i)
      ensures i < old(connected) <= |old(sessions)| ==>
        connected == old(connected) - 1 && sessions == VacatedTwice(old(sessions), old(connected), i)
      ensures old(Logged()) ==> Logged()
    {
      hide PacketsOk, QueueOk, TableOk, SessionsOk, ChainKeysOk, Kept, Framed, Vacated, VacatedTwice, Recorded;
      hide WithoutDebts, TailKept;
      sent := sent + [ClosedReply(sessions[i].peer, sessions[i].id)];
      if i >= connected {
        ClosingUnconnected(i);
        VacatedDescends(old(sessions), connected, i);
      } else {
        ClosingConnected(i);
        VacatedTwiceDescends(old(sessions), old(connected), i);
      }
      LoggedAfterClosing(old(states), old(bodies), old(chains), old(sessions), old(connected), old(sent),
                         {old(sessions)[i].id});
    }

    lemma LoggedAfterClosing(states0: map<Addr, State>, bodies0: map<Addr, Body>, chains0: map<nat, seq<Loc>>,
                             sessions0: seq<Session>, connected0: nat, sent0: seq<Datagram>, gone: set<nat>)
      requires Packets(NULL, {}) && Framed(states0, bodies0, states, bodies) && chains == chains0 - gone
      requires Descends(sessions0, connected0, sessions, connected)
      requires sent == sent0 || (|sent| == |sent0| + 1 && sent0 <= sent && !sent[|sent0|].Data?)
      ensures Recorded(states0, chains0, sessions0, connected0, sent0, since, history) ==> Logged()
    {
      hide Recorded, Descends, PacketsOk, Framed;
      LoggedAfterRemoval(states0, bodies0, chains0, sessions0, connected0, sent0);
    }

    /** The session is in the middle of an opening or closing handshake: it owes a single packet. */
    method ClosingUnconnected(i: nat)
      requires Inv() && connected <= i < |sessions|
      modifies `next, `prev, `head, `tail, `queue, `states, `bodies, `chains, `sessions, lookup
      ensures Inv()
      ensures chains == old(chains) - {old(sessions)[i].id}
      ensures queue == Kept(old(queue), states.Keys)
      ensures Framed(old(states), old(bodies), states, bodies)
      ensures old(sessions)[i].id in old(chains)
      ensures bodies == WithoutDebts(old(bodies), old(chains)[old(sessions)[i].id])
      ensures TailKept(old(queue), old(tail), queue, tail)
      ensures sessions == Vacated(old(sessions), i)
    {
      hide PacketsOk, QueueOk, TableOk, SessionsOk, ChainKeysOk, OthersOk, Kept, Framed, Vacated, VacatedLookup;
      hide WithoutDebts, TailKept;
      hide DistinctIds;
      RemovalReady(i);
      GiveUpOnlyPacket(i);
      var wireId := sessions[i].wireId;
      Terminate(i);
      LookupClear(wireId);
    }

    /** Session `i`, which owes one packet, gives it up; with that its record may go. */
    method GiveUpOnlyPacket(i: nat)
      requires Inv() && connected <= i < |sessions|
      modifies `next, `prev, `head, `tail, `queue, `states, `bodies, `chains
      ensures Queue() && Packets(NULL, {})
      ensures chains == old(chains) - {sessions[i].id}
      ensures queue == Kept(old(queue), states.Keys)
      ensures Framed(old(states), old(bodies), states, bodies)
      ensures sessions[i].id in old(chains) && bodies == WithoutDebts(old(bodies), old(chains)[sessions[i].id])
      ensures TailKept(old(queue), old(tail), queue, tail)
      ensures SessionsOk(states, bodies, chains, {}, Vacated(sessions, i), connected)
      ensures ChainKeysOk(Vacated(sessions, i), chains)
    {
      hide PacketsOk, QueueOk, TableOk, SessionsOk, ChainKeysOk, OthersOk, Kept, Framed, Vacated, VacatedLookup;
      hide WithoutDebts;
      hide DistinctIds;
      RemovalReady(i);
      OnlyPacket(i);
      Disassociate(sessions[i].head.packet, sessions[i].head.slot, sessions[i].id, 0);
      LeavesUnconnected(i, old(states), old(bodies), old(chains));
      chains := chains - {sessions[i].id};
    }

    /** Removes a session that answered a closing request, provided it had been sent one. */
    method Closed(i: nat)
      requires Inv() && i < |sessions|
      modifies `next, `prev, `head, `tail, `queue, `states, `bodies, `chains, `sessions, lookup
      ensures Inv()
      ensures queue == Kept(old(queue), states.Keys)
      ensures Framed(old(states), old(bodies), states, bodies)
      ensures if old(IsClosing(i)) then
                && i >= connected && chains == old(chains) - {old(sessions)[i].id}
                && sessions == Vacated(old(sessions), i) && old(sessions)[i].id in old(chains)
                && bodies == WithoutDebts(old(bodies), old(chains)[old(sessions)[i].id])
                && TailKept(old(queue), old(tail), queue, tail)
              else
                unchanged(this) && unchanged(lookup)
      ensures old(Logged()) ==> Logged()
    {
      hide PacketsOk, QueueOk, TableOk, SessionsOk, ChainKeysOk, OthersOk, Kept, Framed, Vacated, VacatedLookup;
      hide WithoutDebts, TailKept;
      hide DistinctIds, Recorded;
      NothingChanges();
      if !IsClosing(i) {
        return;
      }
      ClosingIsUnconnected(i);
      RemovalReady(i);
      OnlyPacket(i);
      RemovedOnce(sessions, connected, lookup[..], i);
      GiveUpOnlyPacket(i);
      Terminate(i);
      VacatedDescends(old(sessions), connected, i);
      LoggedAfterClosing(old(states), old(bodies), old(chains), old(sessions), connected, sent, {old(sessions)[i].id});
    }

    /** The session has been sent a closing request. */
    predicate IsClosing(i: nat)
      requires i < |sessions|
      reads this
    {
      sessions[i].head.packet != NULL && sessions[i].head.packet in states && states[sessions[i].head.packet].closing
    }

    lemma NothingChanges()
      requires Packets(NULL, {})
      ensures queue == Kept(queue, states.Keys)
      ensures Framed(states, bodies, states, bodies)
    {
      KeptAll(queue, states.Keys);
    }

    lemma ClosingIsUnconnected(i: nat)
      requires Inv() && i < |sessions| && IsClosing(i)
      ensures i >= connected
    {
    }

    /** The session is connected: it gives up its whole chain. */
    method ClosingConnected(i: nat)
      requires Inv() && i < connected && i < |sessions|
      modifies `next, `prev, `head, `tail, `queue, `states, `bodies, `chains, `sessions, `connected, lookup
      ensures Inv() && connected == old(connected) - 1
      ensures chains == old(chains) - {old(sessions)[i].id}
      ensures queue == Kept(old(queue), states.Keys)
      ensures Framed(old(states), old(bodies), states, bodies)
      ensures old(sessions)[i].id in old(chains)
      ensures bodies == WithoutDebts(old(bodies), old(chains)[old(sessions)[i].id])
      ensures TailKept(old(queue), old(tail), queue, tail)
      ensures old(connected) <= |old(sessions)|
      ensures sessions == VacatedTwice(old(sessions), old(connected), i)
    {
      hide PacketsOk, QueueOk, TableOk, SessionsOk, ChainKeysOk, OthersOk, Kept, Framed, VacatedTwice;
      hide WithoutDebts, TailKept;
      hide VacatedTwiceLookup, DistinctIds, Linked;
      ghost var o := sessions[i].id;
      ConnectedRemovalReady(i);
      LookupClear(sessions[i].id);
      GiveUpChain(i);
      RemoveConnected(i);
      chains := chains - {o};
    }

    /** Session `i`, which is connected, gives up its whole chain; with that its record may go. */
    method GiveUpChain(i: nat)
      requires Queue() && Packets(NULL, {}) && Sessions({}) && i < connected <= |sessions| && DistinctIds(sessions)
      modifies `next, `prev, `head, `tail, `queue, `states, `bodies, `chains
      ensures Queue()
      ensures var o := sessions[i].id; var sessions' := VacatedTwice(sessions, connected, i);
        && chains - {o} == old(chains) - {o}
        && PacketsOk(states, bodies, queue, chains - {o}, births, clock, NULL, {})
        && SessionsOk(states, bodies, chains - {o}, {}, sessions', connected - 1)
        && ChainKeysOk(sessions', chains - {o})
      ensures queue == Kept(old(queue), states.Keys)
      ensures Framed(old(states), old(bodies), states, bodies)
      ensures sessions[i].id in old(chains) && bodies == WithoutDebts(old(bodies), old(chains)[sessions[i].id])
      ensures TailKept(old(queue), old(tail), queue, tail)
    {
      hide PacketsOk, QueueOk, SessionsOk, ChainKeysOk, Kept, Framed, VacatedTwice, DistinctIds, Linked;
      hide WithoutDebts, TailKept;
      WholeChain(i);
      Flush(sessions[i].head, sessions[i].id, 0);
      LeavesConnected(i, old(states), old(bodies), old(chains));
    }

    /** Removes the record of a connected session: the last connected record takes its place, and the
        last record of all takes the place of that one. */
    method RemoveConnected(i: nat)
      requires lookup.Length == ID_COUNT && i < connected <= |sessions|
      requires sessions[connected - 1].id < ID_COUNT && sessions[connected - 1].wireId < ID_COUNT
      requires sessions[|sessions| - 1].id < ID_COUNT && sessions[|sessions| - 1].wireId < ID_COUNT
      modifies `sessions, `connected, lookup
      ensures connected == old(connected) - 1
      ensures sessions == VacatedTwice(old(sessions), old(connected), i)
      ensures lookup[..] == VacatedTwiceLookup(old(sessions), old(connected), old(lookup[..]), i)
    {
      connected := connected - 1;
      if i != connected {
        sessions := sessions[i := sessions[connected]];
        LookupSet(sessions[i].id, i);
      }
      SessionRelease(connected);
    }

    lemma OnlyPacket(i: nat)
      requires Inv() && connected <= i < |sessions|
      ensures var s := sessions[i];
        && s.id in chains && chains[s.id] == [s.head] && Without(chains[s.id], 0) == []
        && s.head.packet in states && s.head.packet in bodies && s.head.packet != NULL
        && s.tail.packet == s.head.packet
        && (states[s.head.packet].closing <==> s.wireId == s.id)
    {
      hide QueueOk, TableOk;
      var s := sessions[i];
      assert SessionOk(states, bodies, chains, {}, s, false);
      LinkOwed(bodies, chains, s.id, 0);
      assert chains[s.id] == [s.head];
    }

    lemma WholeChain(i: nat)
      requires Sessions({}) && i < connected && i < |sessions|
      ensures var s := sessions[i];
        && s.id in chains && Linked(bodies, chains[s.id]) && chains[s.id][0..] == chains[s.id]
        && chains[s.id][..0] == []
        && (if chains[s.id] == [] then s.head.packet == NULL else s.head == chains[s.id][0])
    {
    }

    /** The table after the session at `i` has been removed from outside the connected prefix. */
    lemma RemovalReady(i: nat)
      requires Table() && connected <= i < |sessions|
      ensures lookup.Length == ID_COUNT && DistinctIds(sessions)
      ensures sessions[i].id < ID_COUNT && sessions[i].wireId < ID_COUNT
      ensures sessions[|sessions| - 1].id < ID_COUNT && sessions[|sessions| - 1].wireId < ID_COUNT
      ensures TableOk(Vacated(sessions, i), connected,
                      VacatedLookup(sessions, lookup[..][sessions[i].id := 0], i)[sessions[i].wireId := 0])
      ensures |Vacated(sessions, i)| == |sessions| - 1
    {
      hide TableOk;
      Removed(sessions, connected, lookup[..], i);
      TableDistinct(sessions, connected, lookup[..]);
      LookupLength();
    }

    lemma ConnectedRemovalReady(i: nat)
      requires Table() && i < connected && i < |sessions|
      ensures lookup.Length == ID_COUNT && DistinctIds(sessions) && connected <= |sessions|
      ensures sessions[i].id < ID_COUNT && sessions[connected - 1].id < ID_COUNT
      ensures sessions[connected - 1].wireId < ID_COUNT
      ensures sessions[|sessions| - 1].id < ID_COUNT && sessions[|sessions| - 1].wireId < ID_COUNT
      ensures TableOk(VacatedTwice(sessions, connected, i), connected - 1,
                      VacatedTwiceLookup(sessions, connected, lookup[..][sessions[i].id := 0], i))
      ensures |VacatedTwice(sessions, connected, i)| == |sessions| - 1
    {
      hide TableOk;
      TableBounds();
      ConnectedRemoved(sessions, connected, lookup[..], i);
      TableDistinct(sessions, connected, lookup[..]);
    }

    lemma TableBounds()
      requires Table()
      ensures lookup.Length == ID_COUNT && connected <= |sessions|
    {
    }

    lemma LeavesUnconnected(i: nat, states0: map<Addr, State>, bodies0: map<Addr, Body>, chains0: map<nat, seq<Loc>>)
      requires Packets(NULL, {}) && connected <= i < |sessions| && DistinctIds(sessions)
      requires SessionsOk(states0, bodies0, chains0, {}, sessions, connected) && ChainKeysOk(sessions, chains0)
      requires sessions[i].id in chains0 && chains == chains0[sessions[i].id := []]
      requires Framed(states0, bodies0, states, bodies)
      ensures PacketsOk(states, bodies, queue, chains - {sessions[i].id}, births, clock, NULL, {})
      ensures SessionsOk(states, bodies, chains - {sessions[i].id}, {}, Vacated(sessions, i), connected)
      ensures ChainKeysOk(Vacated(sessions, i), chains - {sessions[i].id})
      ensures chains - {sessions[i].id} == chains0 - {sessions[i].id}
    {
      hide RefsOk, OrderOk, BirthsOk, ChainsOk, SessionOk, Framed, DistinctIds, ChainKeysOk;
      OthersFramed(states0, bodies0, chains0, {}, states, bodies, chains, sessions, connected, i);
      PacketsForgotten(states, bodies, queue, chains, births, clock, NULL, {}, sessions[i].id);
      OthersVacated(states, bodies, chains, {}, sessions, connected, i);
      ChainKeysSame(sessions, sessions, chains0, chains);
      VacatedKeepsOthers(sessions, i);
      ChainKeysWithout(sessions, chains, i, Vacated(sessions, i));
    }

    lemma LeavesConnected(i: nat, states0: map<Addr, State>, bodies0: map<Addr, Body>, chains0: map<nat, seq<Loc>>)
      requires Packets(NULL, {}) && i < connected <= |sessions| && DistinctIds(sessions)
      requires SessionsOk(states0, bodies0, chains0, {}, sessions, connected) && ChainKeysOk(sessions, chains0)
      requires sessions[i].id in chains0 && chains == chains0[sessions[i].id := []]
      requires Framed(states0, bodies0, states, bodies)
      ensures var sessions' := VacatedTwice(sessions, connected, i);
        && PacketsOk(states, bodies, queue, chains - {sessions[i].id}, births, clock, NULL, {})
        && SessionsOk(states, bodies, chains - {sessions[i].id}, {}, sessions', connected - 1)
        && ChainKeysOk(sessions', chains - {sessions[i].id})
      ensures chains - {sessions[i].id} == chains0 - {sessions[i].id}
    {
      hide RefsOk, OrderOk, BirthsOk, ChainsOk, SessionsOk, OthersOk, Framed, DistinctIds, ChainKeysOk, VacatedTwice;
      AllButOne(states0, bodies0, chains0, {}, sessions, connected, i);
      OthersFramed(states0, bodies0, chains0, {}, states, bodies, chains, sessions, connected, i);
      PacketsForgotten(states, bodies, queue, chains, births, clock, NULL, {}, sessions[i].id);
      OthersVacatedTwice(states, bodies, chains, sessions, connected, i);
      ChainKeysSame(sessions, sessions, chains0, chains);
      VacatedTwiceKeepsOthers(sessions, connected, i);
      ChainKeysWithout(sessions, chains, i, VacatedTwice(sessions, connected, i));
    }

    // -------------------------------------------------------------- retransmissions

    /** The session at position `j` of packet `p`. */
    lemma OwnerAt(p: Addr, j: nat)
      requires Packets(NULL, {}) && Table() && ChainKeysOk(sessions, chains) && p in bodies && j < bodies[p].remaining
      ensures lookup.Length == ID_COUNT && j < |bodies[p].slots|
      ensures var k := IndexAt(bodies[p], j);
        && Addressable(sessions, lookup[..], bodies[p], k) && Owes(bodies[p], k)
        && var o := bodies[p].slots[k].owner;
        && o < ID_COUNT && lookup[o] == lookup[..][o]
        && sessions[lookup[o] - 1].id == o && o in chains && Loc(p, k) in chains[o]
    {
      hide OrderOk, ChainsOk, BirthsOk;
      assert IndexOk(bodies[p]);
      var k := IndexAt(bodies[p], j);
      assert Owed(bodies, NULL, {}, p, k);
      var o := bodies[p].slots[k].owner;
      var i :| 0 <= i < |sessions| && sessions[i].id == o;
      RecordIds(sessions, connected, lookup[..], i);
    }

    /** Fires the retransmit timer for the oldest packet in the queue. */
    method ResendHead(now: Timespec)
      requires Inv() && queue != [] && queue[0] in states && states[queue[0]].resends > 0
      modifies `next, `prev, `head, `tail, `queue, `states, `sent
      ensures Inv()
      ensures Fired(old(queue), old(states), now, queue, states)
      ensures bodies == old(bodies) && old(queue)[0] in bodies
      ensures var p := old(queue)[0];
        && bodies[p].remaining <= |bodies[p].slots|
        && sent == old(sent) + Transmissions(sessions, lookup[..], bodies[p], old(states)[p], bodies[p].remaining)
    {
      hide PacketsOk, QueueOk, TableOk, SessionsOk, ChainKeysOk, Kept, Transmissions, IndexOk;
      var p := head;
      HeadAt(p);
      SendToOwners(p);
      ghost var after := states[p].(resends := states[p].resends - 1, stamp := now);
      RotationKeeps(after);
      Requeue(now);
      states := states[p := states[p].(resends := states[p].resends - 1)];
      assert states == old(states)[p := after];
    }

    /** Sends a packet to every session that still owes an acknowledgement for it. */
    method SendToOwners(p: Addr)
      requires Packets(NULL, {}) && Table() && ChainKeysOk(sessions, chains)
      requires p in bodies && p in states && bodies[p].remaining <= |bodies[p].slots|
      modifies `sent
      ensures sent == old(sent) + Transmissions(sessions, lookup[..], bodies[p], states[p], bodies[p].remaining)
    {
      hide PacketsOk, TableOk, ChainKeysOk, Transmissions, Addressable;
      NobodyYet(p);
      var i := 0;
      while i < bodies[p].remaining
        modifies `sent
        invariant i <= bodies[p].remaining
        invariant sent == old(sent) + Transmissions(sessions, lookup[..], bodies[p], states[p], i)
      {
        OwnerAt(p, i);
        var k := bodies[p].slots[i].index;
        TransmissionsNext(p, k, i);
        PacketSend(p, k, lookup[bodies[p].slots[k].owner] - 1);
        i := i + 1;
      }
    }

    lemma NobodyYet(p: Addr)
      requires p in bodies && p in states
      ensures Transmissions(sessions, lookup[..], bodies[p], states[p], 0) == []
    {
    }

    lemma HeadAt(p: Addr)
      requires Queue() && Packets(NULL, {}) && queue != [] && p == head
      ensures p == queue[0] && p in states && p in bodies && IndexOk(bodies[p])
      ensures 0 < bodies[p].remaining <= |bodies[p].slots|
      ensures states[p].resends <= RESENDS
    {
    }

    lemma TransmissionsNext(p: Addr, k: nat, i: nat)
      requires p in bodies && p in states && i < |bodies[p].slots| && k == IndexAt(bodies[p], i)
      requires Addressable(sessions, lookup[..], bodies[p], k) && lookup.Length == ID_COUNT
      ensures var slot := bodies[p].slots[k];
        && slot.owner < ID_COUNT && 1 <= lookup[slot.owner] <= |sessions|
        && forall before: seq<Datagram> ::
             before + Transmissions(sessions, lookup[..], bodies[p], states[p], i)
               + [Transmission(sessions[lookup[slot.owner] - 1], slot, states[p])]
             == before + Transmissions(sessions, lookup[..], bodies[p], states[p], i + 1)
    {
    }

    /** Rotating the head to the end with a new state. */
    lemma RotationKeeps(state: State)
      requires Inv() && queue != [] && queue[0] in states && state.resends <= RESENDS
      requires state.closing == states[queue[0]].closing && states[queue[0]].resends == state.resends + 1
      ensures var states' := states[queue[0] := state];
        && PacketsOk(states', bodies, queue[1..] + [queue[0]], chains, births, clock, NULL, {})
        && SessionsOk(states', bodies, chains, {}, sessions, connected)
    {
      hide RefsOk, ChainsOk, TableOk, SessionsOk, ChainKeysOk;
      OrderRotated(states, states[queue[0] := state], queue, births);
      SessionsRestated(states, states[queue[0] := state], bodies, chains, sessions, connected);
    }

    /** The closing request at the head of the queue has gone unanswered too often: its sessions are
        removed, and it is taken out of the queue and freed. The tail pointer is not touched. */
    method TerminateHead(ghost now: Timespec)
      requires Inv() && queue != [] && queue[0] in states && states[queue[0]].resends == 0 && states[queue[0]].closing
      modifies `next, `prev, `head, `queue, `states, `bodies, `chains, `sessions, lookup
      ensures Inv()
      ensures Fired(old(queue), old(states), now, queue, states)
      ensures queue == [] ==> tail == old(queue)[0] != NULL
      ensures bodies == old(bodies) - {old(queue)[0]}
      ensures old(queue)[0] in old(bodies) && IndexOk(old(bodies)[old(queue)[0]])
      ensures var b := old(bodies)[old(queue)[0]]; chains == old(chains) - OwnersBelow(b, b.remaining)
      ensures var b := old(bodies)[old(queue)[0]]; sessions == Terminated(old(sessions), b, b.remaining)
      ensures states == old(states) - {old(queue)[0]} && Descends(old(sessions), connected, sessions, connected)
    {
      hide PacketsOk, QueueOk, TableOk, SessionsOk, ChainKeysOk, OthersOk, OwedFrom, OwnersBelow, IndexOk, Owes;
      hide Vacated, VacatedLookup, Descends, Terminated, Where;
      var p := head;
      HeadAt(p);
      PacketsFocused(states, bodies, queue, chains, births, clock, p);
      ghost var b := bodies[p];
      assert chains == chains - OwnersBelow(b, 0) by { NobodyBelow(b); }
      OwnersOfClosing(p);
      DescendsSame(sessions, connected, sessions);
      NobodyTerminated(sessions, b);
      var i := 0;
      while i < bodies[p].remaining
        modifies `sessions, `chains, lookup
        invariant i <= b.remaining
        invariant Packets(p, OwedFrom(b, i)) && Table() && Sessions({}) && Config()
        invariant chains == old(chains) - OwnersBelow(b, i)
        invariant Descends(old(sessions), connected, sessions, connected)
        invariant sessions == Terminated(old(sessions), b, i)
      {
        var k := bodies[p].slots[i].index;
        TerminationReady(p, i);
        var session := LookupGet(bodies[p].slots[k].owner);
        RecordIsThere(session);
        VacatedMore(old(sessions), session);
        TerminatedMore(old(sessions), b, i, session);
        Terminate(session);
        chains := chains - {bodies[p].slots[k].owner};
        OwedFromNext(b, i);
        i := i + 1;
      }
      NobodyLeft(p, b);
      LastIsTail();
      DequeueHead();
      Free(p);
    }

    lemma NobodyTerminated(sessions0: seq<Session>, b: Body)
      requires IndexOk(b)
      ensures Terminated(sessions0, b, 0) == sessions0
    {
    }

    lemma RecordIsThere(i: nat)
      requires Table() && i < |sessions|
      ensures Where(sessions, sessions[i].id) == i
    {
      hide TableOk, DistinctIds;
      TableDistinct(sessions, connected, lookup[..]);
      WhereIs(sessions, i);
    }

    lemma VacatedMore(sessions0: seq<Session>, i: nat)
      requires Descends(sessions0, connected, sessions, connected) && connected <= i < |sessions|
      ensures Descends(sessions0, connected, Vacated(sessions, i), connected)
    {
      hide Descends;
      VacatedDescends(sessions, connected, i);
      DescendsTwice(sessions0, connected, sessions, connected, Vacated(sessions, i), connected);
    }

    lemma LastIsTail()
      requires Queue() && queue != []
      ensures queue[1..] == [] ==> tail == queue[0] != NULL
    {
    }

    lemma QueueAllocated()
      requires Inv()
      ensures QueueIn(queue, states) && (head == NULL <==> queue == [])
      ensures queue != [] ==> head == queue[0] && head in states
      ensures 0 < retransmitDelay < pingInterval < ID_COUNT
    {
    }

    /** Unlinks the head of the queue without looking at the tail. */
    method DequeueHead()
      requires Queue() && queue != []
      modifies `prev, `head, `queue
      ensures Queue() && queue == old(queue)[1..]
    {
      assert head in next;
      head := next[head];
      if head != NULL {
        prev := prev[head := NULL];
      }
      queue := queue[1..];
    }

    lemma NobodyBelow(b: Body)
      requires IndexOk(b)
      ensures chains == chains - OwnersBelow(b, 0)
    {
    }

    lemma OwnersOfClosing(p: Addr)
      requires Inv() && p in bodies && p in states && states[p].closing
      ensures lookup.Length == ID_COUNT && IndexOk(bodies[p])
    {
    }

    /** The session at position `i` of the closing request `p`. */
    lemma TerminationTarget(p: Addr, i: nat) returns (session: nat)
      requires p in bodies && IndexOk(bodies[p]) && i < bodies[p].remaining
      requires Packets(p, OwedFrom(bodies[p], i)) && Table() && Sessions({}) && p in states && states[p].closing
      ensures lookup.Length == ID_COUNT && IndexAt(bodies[p], i) < |bodies[p].slots|
      ensures var k := IndexAt(bodies[p], i); var o := bodies[p].slots[k].owner;
        && connected <= session < |sessions| && sessions[session].id == sessions[session].wireId == o
        && o < ID_COUNT && lookup[o] == session + 1 && o in chains && chains[o] == [Loc(p, k)]
    {
      hide SessionsOk, OrderOk, ChainsOk, BirthsOk, SessionOk;
      var k := IndexAt(bodies[p], i);
      OwedFromNext(bodies[p], i);
      assert Owed(bodies, p, OwedFrom(bodies[p], i), p, k);
      var o := bodies[p].slots[k].owner;
      session :| 0 <= session < |sessions| && sessions[session].id == o;
      RecordIds(sessions, connected, lookup[..], session);
      RecordOk(session, {});
      OwesClosing(states, bodies, chains, sessions[session], session < connected, Loc(p, k));
    }

    lemma RecordOk(i: nat, dropped: set<nat>)
      requires Sessions(dropped) && i < |sessions|
      ensures SessionOk(states, bodies, chains, dropped, sessions[i], i < connected)
    {
    }

    lemma TerminationReady(p: Addr, i: nat)
      requires p in bodies && IndexOk(bodies[p]) && i < bodies[p].remaining
      requires Packets(p, OwedFrom(bodies[p], i)) && Table() && Sessions({}) && p in states && states[p].closing
      ensures lookup.Length == ID_COUNT && IndexAt(bodies[p], i) < |bodies[p].slots|
      ensures bodies[p].slots[IndexAt(bodies[p], i)].owner < ID_COUNT
      ensures var k := IndexAt(bodies[p], i); var o := bodies[p].slots[k].owner; var session := lookup[o] - 1;
        && connected <= session < |sessions| && sessions[session].id == o
        && sessions[|sessions| - 1].id < ID_COUNT && sessions[|sessions| - 1].wireId < ID_COUNT
        && var sessions' := Vacated(sessions, session); var chains' := chains - {o};
        && |sessions'| == |sessions| - 1
        && PacketsOk(states, bodies, queue, chains', births, clock, p, OwedFrom(bodies[p], i) - {k})
        && SessionsOk(states, bodies, chains', {}, sessions', connected)
        && ChainKeysOk(sessions', chains')
        && TableOk(sessions', connected, VacatedLookup(sessions, lookup[..][o := 0], session))
    {
      hide PacketsOk, TableOk, SessionsOk, ChainKeysOk, DistinctIds;
      var session := TerminationTarget(p, i);
      var k := IndexAt(bodies[p], i);
      var o := bodies[p].slots[k].owner;
      RemovalReady(session);
      RemovedOnce(sessions, connected, lookup[..], session);
      PacketsTerminated(states, bodies, queue, chains, births, clock, p, OwedFrom(bodies[p], i), o, k);
      AllButOne(states, bodies, chains, {}, sessions, connected, session);
      OthersVacated(states, bodies, chains, {}, sessions, connected, session);
      VacatedKeepsOthers(sessions, session);
      ChainKeysWithout(sessions, chains, session, Vacated(sessions, session));
    }

    lemma NobodyLeft(p: Addr, b: Body)
      requires Queue() && queue != [] && queue[0] == p && p in bodies && b == bodies[p] && IndexOk(b)
      requires Packets(p, OwedFrom(b, b.remaining)) && SessionsOk(states, bodies, chains, {}, sessions, connected)
      ensures PacketsOk(states - {p}, bodies - {p}, queue[1..], chains, births, clock, NULL, {})
      ensures SessionsOk(states - {p}, bodies - {p}, chains, {}, sessions, connected)
      ensures p !in queue[1..]
    {
      hide PacketsOk, SessionsOk;
      assert OwedFrom(b, b.remaining) == {};
      PacketsFreed(states, bodies, queue, chains, births, clock);
      SessionsIgnore(states, bodies, chains, states - {p}, bodies - {p}, sessions, connected, p);
    }

    /** Takes a session out of the connected ones, or ends its opening handshake; from now on it is
        only known by the id the server assigned. */
    method Drop(i: nat)
      requires Table() && i < |sessions| && (i >= connected ==> sessions[i].wireId != sessions[i].id)
      modifies `sessions, `connected, lookup
      ensures Table() && old(connected) <= |old(sessions)|
      ensures sessions == DroppedRecords(old(sessions), old(connected), i)
      ensures connected == if i < old(connected) then old(connected) - 1 else old(connected)
    {
      hide TableOk;
      TableBounds();
      if i < connected {
        Disconnected(sessions, connected, lookup[..], i);
        assert i == connected - 1 ==> Swapped(sessions, i, connected - 1) == sessions;
        connected := connected - 1;
        if i != connected {
          SessionSwap(i);
        }
      } else {
        HandshakeDropped(sessions, connected, lookup[..], i);
        LookupClear(sessions[i].wireId);
        sessions := sessions[i := sessions[i].(wireId := sessions[i].id)];
      }
    }

    /** Session `i` stops owing anything but slot `k` of packet `p`, the first of its chain, leaves the
        connected ones and is sent what that packet now carries. */
    method CloseOwner(p: Addr, k: nat, i: nat, ghost dropped: set<nat>)
      requires Queue() && Packets(NULL, {}) && Table() && Sessions(dropped) && Config()
      requires i < |sessions| && sessions[i].id in chains && sessions[i].id !in dropped
      requires chains[sessions[i].id] != [] && chains[sessions[i].id][0] == Loc(p, k)
      requires p in states && !states[p].closing
      modifies `next, `prev, `head, `tail, `queue, `states, `bodies, `chains, `sessions, `connected, `sent, lookup
      ensures Queue() && Packets(NULL, {}) && Table() && Sessions(dropped + {old(sessions)[i].id}) && Config()
      ensures chains == old(chains)[old(sessions)[i].id := [Loc(p, k)]]
      ensures queue == Kept(old(queue), states.Keys) && p in states && states.Keys <= old(states).Keys
      ensures forall a :: a in states ==> states[a] == old(states)[a]
      ensures p in old(bodies) && p in bodies && SameIndex(old(bodies)[p], bodies[p])
      ensures sent == old(sent) + [Data(old(sessions)[i].peer, old(sessions)[i].id, 0, states[p].payload)]
      ensures Descends(old(sessions), old(connected), sessions, connected)
      ensures Parties(sessions, connected, bodies)
        == OwnerDropped(Parties(old(sessions), old(connected), old(bodies)), old(chains), p, k)
    {
      hide PacketsOk, QueueOk, TableOk, SessionsOk, ChainKeysOk, OthersOk, Kept, DistinctIds, Linked, DroppedRecords;
      hide SameIndex, SlotClosed, WithoutDebts;
      hide Descends;
      ghost var s := sessions[i];
      RecordIsThere(i);
      FlushBehind(p, k, i, dropped);
      Retire(p, k, i, dropped);
      PacketSend(p, k, DroppedIndex(old(connected), i));
    }

    /** Drops session `i` and turns slot `k` of packet `p` into the only one it owes. */
    method Retire(p: Addr, k: nat, i: nat, ghost dropped: set<nat>)
      requires Table() && i < |sessions| && connected <= |sessions| && sessions[i].head.packet == p
      requires p in bodies && k < |bodies[p].slots| && (i >= connected <==> sessions[i].wireId != sessions[i].id)
      requires DropReady(p, k, i, dropped)
      modifies `bodies, `sessions, `connected, lookup
      ensures Packets(NULL, {}) && Table() && Sessions(dropped + {old(sessions)[i].id}) && |sessions| == |old(sessions)|
      ensures p in bodies && SameIndex(old(bodies)[p], bodies[p])
      ensures k < |bodies[p].slots| && bodies[p].slots[k].remoteId == 0
      ensures bodies[p].slots[k].owner == old(bodies)[p].slots[k].owner
      ensures var f := DroppedIndex(old(connected), i); var s := old(sessions)[i];
        && f < |sessions| && sessions[f].peer == s.peer && sessions[f].wireId == s.id
        && lookup.Length == ID_COUNT && s.id < ID_COUNT && lookup[s.id] == f + 1
      ensures Descends(old(sessions), old(connected), sessions, connected)
      ensures bodies == SlotClosed(old(bodies), Loc(p, k))
      ensures var sessions1 := old(sessions)[i := old(sessions)[i].(tail := Loc(p, old(sessions)[i].tail.slot))];
        && sessions == DroppedRecords(sessions1, old(connected), i)
        && connected == if i < old(connected) then old(connected) - 1 else old(connected)
    {
      hide PacketsOk, TableOk, SessionsOk, ChainKeysOk, DroppedRecords, SameIndex, Descends;
      sessions := sessions[i := sessions[i].(tail := Loc(sessions[i].head.packet, sessions[i].tail.slot))];
      TableSameIds(old(sessions), sessions, connected, lookup[..]);
      DroppedRecord(sessions, connected, i);
      RetiredDescends(old(sessions), i);
      Drop(i);
      bodies := WithSlot(bodies, Loc(p, k),
        SlotAt(bodies, Loc(p, k)).(next := Loc(NULL, SlotAt(bodies, Loc(p, k)).next.slot), remoteId := 0));
      CloseOwnerEnds(i, old(connected), old(sessions));
    }

    lemma RetiredDescends(sessions0: seq<Session>, i: nat)
      requires i < |sessions0| == |sessions| && connected <= |sessions|
      requires sessions == sessions0[i := sessions0[i].(tail := sessions[i].tail)]
      ensures Descends(sessions0, connected, DroppedRecords(sessions, connected, i),
                       if i < connected then connected - 1 else connected)
    {
      hide Descends;
      DescendsSame(sessions0, connected, sessions);
      DroppedDescends(sessions, connected, i);
      DescendsTwice(sessions0, connected, sessions, connected, DroppedRecords(sessions, connected, i),
                    if i < connected then connected - 1 else connected);
    }

    /** Gives up everything behind the first packet of the chain of session `i`. */
    method FlushBehind(p: Addr, k: nat, i: nat, ghost dropped: set<nat>)
      requires Queue() && Packets(NULL, {}) && Table() && Sessions(dropped)
      requires i < |sessions| && sessions[i].id in chains && sessions[i].id !in dropped
      requires chains[sessions[i].id] != [] && chains[sessions[i].id][0] == Loc(p, k)
      requires p in states && !states[p].closing
      modifies `next, `prev, `head, `tail, `queue, `states, `bodies, `chains
      ensures Queue() && connected <= |sessions| && sessions[i].head.packet == p
      ensures chains == old(chains)[sessions[i].id := [Loc(p, k)]]
      ensures queue == Kept(old(queue), states.Keys) && p in states && states.Keys <= old(states).Keys
      ensures forall a :: a in states ==> states[a] == old(states)[a]
      ensures p in old(bodies) && p in bodies && bodies[p] == old(bodies)[p] && k < |bodies[p].slots|
      ensures SlotAt(bodies, Loc(p, k)).owner == sessions[i].id
      ensures i >= connected <==> sessions[i].wireId != sessions[i].id
      ensures DropReady(p, k, i, dropped)
      ensures bodies == WithoutDebts(old(bodies), old(chains)[sessions[i].id][1..])
    {
      hide PacketsOk, QueueOk, TableOk, SessionsOk, ChainKeysOk, OthersOk, Kept, DistinctIds, Linked, DroppedRecords;
      hide SameIndex, WithoutDebts;
      CloseOwnerStarts(p, k, i, dropped);
      Flush(SlotAt(bodies, Loc(p, k)).next, sessions[i].id, 1);
      CloseOwnerFlushed(p, k, i, dropped, old(states), old(bodies), old(chains));
    }

    /** Dropping session `i` and rewriting its slot will restore the invariant. */
    ghost predicate DropReady(p: Addr, k: nat, i: nat, dropped: set<nat>)
      requires p in bodies && k < |bodies[p].slots| && i < |sessions| && connected <= |sessions|
      reads this
    {
      var slot := SlotAt(bodies, Loc(p, k)).(next := Loc(NULL, SlotAt(bodies, Loc(p, k)).next.slot), remoteId := 0);
      var bodies' := WithSlot(bodies, Loc(p, k), slot);
      var sessions1 := sessions[i := sessions[i].(tail := Loc(p, sessions[i].tail.slot))];
      var sessions' := DroppedRecords(sessions1, connected, i);
      && PacketsOk(states, bodies', queue, chains, births, clock, NULL, {})
      && SameIndex(bodies[p], bodies'[p])
      && SessionsOk(states, bodies', chains, dropped + {sessions[i].id}, sessions',
                    if i < connected then connected - 1 else connected)
      && ChainKeysOk(sessions', chains)
    }

    lemma CloseOwnerStarts(p: Addr, k: nat, i: nat, dropped: set<nat>)
      requires Packets(NULL, {}) && Table() && Sessions(dropped)
      requires i < |sessions| && sessions[i].id in chains
      requires chains[sessions[i].id] != [] && chains[sessions[i].id][0] == Loc(p, k)
      requires p in states && !states[p].closing && sessions[i].id !in dropped
      ensures p in bodies && p != NULL && k < |bodies[p].slots|
      ensures lookup.Length == ID_COUNT && connected <= |sessions| && DistinctIds(sessions)
      ensures var c := chains[sessions[i].id];
        && Linked(bodies, c[1..]) && c[..1] == [Loc(p, k)] && sessions[i].head == Loc(p, k)
        && (if |c| == 1 then SlotAt(bodies, Loc(p, k)).next.packet == NULL else SlotAt(bodies, Loc(p, k)).next == c[1])
        && p !in PacketsOf(c[1..])
      ensures i >= connected ==> sessions[i].wireId != sessions[i].id
      ensures i < connected ==> sessions[i].wireId == sessions[i].id
      ensures SlotAt(bodies, Loc(p, k)).owner == sessions[i].id && sessions[i].id < ID_COUNT
    {
      hide OrderOk, BirthsOk, ChainsOk, SessionsOk, Linked, PacketsOf;
      RecordOk(i, dropped);
      ChainTail(states, bodies, chains, dropped, sessions[i], i < connected);
      HeadNotInTail(chains, births, sessions[i].id);
      RecordIds(sessions, connected, lookup[..], i);
      LinkOwed(bodies, chains, sessions[i].id, 0);
      TableDistinct(sessions, connected, lookup[..]);
    }

    /** After the flush: what dropping the session and rewriting its slot will amount to. */
    lemma CloseOwnerFlushed(p: Addr, k: nat, i: nat, dropped: set<nat>,
                            states0: map<Addr, State>, bodies0: map<Addr, Body>, chains0: map<nat, seq<Loc>>)
      requires Packets(NULL, {}) && connected <= |sessions| && i < |sessions| && DistinctIds(sessions)
      requires SessionsOk(states0, bodies0, chains0, dropped, sessions, connected) && ChainKeysOk(sessions, chains0)
      requires sessions[i].id in chains0 && chains == chains0[sessions[i].id := [Loc(p, k)]]
      requires Framed(states0, bodies0, states, bodies) && OnlyIn(bodies0, bodies, chains0[sessions[i].id][1..])
        <== chains0[sessions[i].id] != []
      requires chains0[sessions[i].id] != [] && p in bodies0 && p !in PacketsOf(chains0[sessions[i].id][1..])
      requires k < |bodies0[p].slots| && SlotAt(bodies0, Loc(p, k)).owner == sessions[i].id
      requires p != NULL && sessions[i].head == Loc(p, k) && (i < connected ==> sessions[i].wireId == sessions[i].id)
      ensures p in bodies && p in states && bodies[p] == bodies0[p] && states.Keys <= states0.Keys
      ensures forall a :: a in states ==> states[a] == states0[a]
      ensures DropReady(p, k, i, dropped)
    {
      hide PacketsOk, SessionsOk, OthersOk, Framed, ChainKeysOk, DistinctIds, DroppedRecords, OnlyIn, PacketsOf;
      hide SameIndex, SessionOk;
      var o := sessions[i].id;
      FlushLeaves(p, states0, bodies0, chains0[o][1..]);
      var slot := SlotAt(bodies, Loc(p, k)).(next := Loc(NULL, SlotAt(bodies, Loc(p, k)).next.slot), remoteId := 0);
      var bodies' := WithSlot(bodies, Loc(p, k), slot);
      var sessions1 := sessions[i := sessions[i].(tail := Loc(p, sessions[i].tail.slot))];
      PacketsRelinked(states, bodies, queue, chains, births, clock, Loc(p, k), slot);
      RetailedOthers(states0, bodies0, chains0, dropped, i, sessions1);
      OthersClosed(states0, bodies0, chains0, dropped, states, bodies, chains, sessions1, connected, i, Loc(p, k),
                   slot);
      DroppedRecord(sessions1, connected, i);
      var f := DroppedIndex(connected, i);
      var s := DroppedRecords(sessions1, connected, i)[f];
      DroppedSessionOk(states, bodies', chains, dropped + {o}, s, Loc(p, k));
      AllWithOne(states, bodies', chains, dropped + {o}, DroppedRecords(sessions1, connected, i),
                 if i < connected then connected - 1 else connected, f, s);
      assert DroppedRecords(sessions1, connected, i)[f := s] == DroppedRecords(sessions1, connected, i);
      ChainKeysSame(sessions, sessions1, chains0, chains);
      DroppedChainKeys(sessions1, connected, i, chains);
    }

    lemma FlushLeaves(p: Addr, states0: map<Addr, State>, bodies0: map<Addr, Body>, c: seq<Loc>)
      requires Packets(NULL, {}) && Framed(states0, bodies0, states, bodies) && OnlyIn(bodies0, bodies, c)
      requires p in bodies0 && p !in PacketsOf(c)
      ensures p in bodies && p in states && bodies[p] == bodies0[p] && states.Keys <= states0.Keys
      ensures forall a :: a in states ==> states[a] == states0[a]
      ensures RefsOk(bodies, chains, NULL, {}) && NULL !in bodies && bodies.Keys == states.Keys
    {
    }

    lemma RetailedOthers(states0: map<Addr, State>, bodies0: map<Addr, Body>, chains0: map<nat, seq<Loc>>,
                         dropped: set<nat>, i: nat, sessions1: seq<Session>)
      requires SessionsOk(states0, bodies0, chains0, dropped, sessions, connected) && i < |sessions| == |sessions1|
      requires sessions1 == sessions[i := sessions1[i]] && sessions1[i].id == sessions[i].id && DistinctIds(sessions)
      ensures OthersOk(states0, bodies0, chains0, dropped, sessions1, connected, i) && DistinctIds(sessions1)
    {
    }

    lemma CloseOwnerEnds(i: nat, connected0: nat, sessions0: seq<Session>)
      requires Table() && i < |sessions0| == |sessions| && connected0 <= |sessions0|
      requires var f := DroppedIndex(connected0, i); f < |sessions| && sessions[f].id == sessions0[i].id
      ensures lookup.Length == ID_COUNT && sessions0[i].id < ID_COUNT
      ensures lookup[sessions0[i].id] == DroppedIndex(connected0, i) + 1
    {
    }

    /** The ordinary packet at the head of the queue has run out of resends: every session that still
        owes it is dropped and left with nothing but this packet, which becomes a closing request. */
    method CloseHead(now: Timespec)
      requires Inv() && queue != [] && queue[0] in states && states[queue[0]].resends == 0 && !states[queue[0]].closing
      modifies `next, `prev, `head, `tail, `queue, `states, `bodies, `chains, `sessions, `connected, `sent, lookup
      ensures Inv()
      ensures Fired(old(queue), old(states), now, queue, states)
      ensures old(queue)[0] in old(bodies) && FirstForOwners(old(bodies)[old(queue)[0]], old(queue)[0], old(chains))
      ensures var b := old(bodies)[old(queue)[0]];
        && Reduced(old(chains), OwnersBelow(b, b.remaining), chains)
        && ClosingsSent(old(sessions), b, b.remaining, old(sent), sent)
        && old(queue)[0] in bodies && SameIndex(b, bodies[old(queue)[0]])
      ensures Descends(old(sessions), old(connected), sessions, connected)
      ensures var b := old(bodies)[old(queue)[0]];
        Parties(sessions, connected, bodies) == OwnersDropped(
          Parties(old(sessions), old(connected), old(bodies)), old(chains), old(queue)[0], b, b.remaining)
    {
      hide PacketsOk, QueueOk, TableOk, SessionsOk, ChainKeysOk, OthersOk, Kept, SameIndex, OwnersBelow, Reduced;
      hide FirstForOwners, ClosingsSent, OwnersDropped;
      hide Descends;
      var p := head;
      HeadAt(p);
      CloseStarts(p);
      ghost var b := bodies[p];
      states := states[p := states[p].(payload := CloseRequest)];
      DropOwners(p);
      CloseEnds(p, b, OwnersBelow(b, b.remaining), old(queue), old(chains),
                State(RESENDS_CLOSING, true, now, CloseRequest));
      ghost var states1 := states;
      states := states[p := states[p].(resends := RESENDS_CLOSING, closing := true)];
      Requeue(now);
      assert states == states1[p := State(RESENDS_CLOSING, true, now, CloseRequest)];
    }

    /** Drops every session that owes packet `p`, which already carries a closing request. */
    method DropOwners(p: Addr)
      requires Inv() && p in states && !states[p].closing && states[p].payload == CloseRequest
      requires p in bodies && FirstForOwners(bodies[p], p, chains)
      modifies `next, `prev, `head, `tail, `queue, `states, `bodies, `chains, `sessions, `connected, `sent, lookup
      ensures Queue() && Packets(NULL, {}) && Table() && Config()
      ensures IndexOk(old(bodies)[p]) && Sessions(OwnersBelow(old(bodies)[p], old(bodies)[p].remaining))
      ensures p in bodies && SameIndex(old(bodies)[p], bodies[p])
      ensures var b := old(bodies)[p];
        && Reduced(old(chains), OwnersBelow(b, b.remaining), chains)
        && ClosingsSent(old(sessions), b, b.remaining, old(sent), sent)
      ensures p in states && queue == Kept(old(queue), states.Keys) && states.Keys <= old(states).Keys
      ensures forall a :: a in states ==> states[a] == old(states)[a]
      ensures Descends(old(sessions), old(connected), sessions, connected)
      ensures var b := old(bodies)[p];
        Parties(sessions, connected, bodies)
          == OwnersDropped(Parties(old(sessions), old(connected), old(bodies)), old(chains), p, b, b.remaining)
    {
      hide PacketsOk, QueueOk, TableOk, SessionsOk, ChainKeysOk, OthersOk, Kept, SameIndex, OwnersBelow, Reduced;
      hide ClosingsSent, FirstForOwners, OwnerDropped, DistinctIds;
      hide Descends;
      DropStarts(p);
      TableDistinct(sessions, connected, lookup[..]);
      DescendsSame(sessions, connected, sessions);
      ghost var b := bodies[p];
      var i := 0;
      ghost var dropped := {};
      while i < bodies[p].remaining
        invariant Queue() && Packets(NULL, {}) && Table() && Sessions(dropped) && Config()
        invariant i <= b.remaining && p in bodies && SameIndex(b, bodies[p]) && bodies[p].remaining == b.remaining
        invariant dropped == OwnersBelow(b, i) && Reduced(old(chains), dropped, chains)
        invariant p in states && queue == Kept(old(queue), states.Keys) && states.Keys <= old(states).Keys
        invariant forall a :: a in states ==> states[a] == old(states)[a]
        invariant ClosingsSent(old(sessions), b, i, old(sent), sent)
        invariant Descends(old(sessions), old(connected), sessions, connected)
        invariant Parties(sessions, connected, bodies)
          == OwnersDropped(Parties(old(sessions), old(connected), old(bodies)), old(chains), p, b, i)
        decreases b.remaining - i
      {
        CloseContinues(p, b, i, old(chains));
        label before:
        var k := bodies[p].slots[i].index;
        NotReduced(old(chains), dropped, chains, bodies[p].slots[k].owner);
        SameOwnerDropped(Parties(sessions, connected, bodies), old(chains), chains, p, k);
        PeerStays(old(sessions), old(connected), LookupGet(bodies[p].slots[k].owner));
        CloseOwner(p, k, LookupGet(bodies[p].slots[k].owner), dropped);
        SameIndexTwice(b, old@before(bodies)[p], bodies[p]);
        SameIndexRemaining(old@before(bodies)[p], bodies[p]);
        KeptTwice(old(queue), old@before(states).Keys, states.Keys);
        ReducedMore(old(chains), dropped, old@before(chains), b.slots[IndexAt(b, i)].owner, Loc(p, IndexAt(b, i)));
        OwedFromNext(b, i);
        ClosingSent(old(sessions), b, i, old(sent), old@before(sent), sent);
        DescendsTwice(old(sessions), old(connected), old@before(sessions), old@before(connected), sessions, connected);
        dropped := dropped + {b.slots[IndexAt(b, i)].owner};
        i := i + 1;
      }
    }

    lemma PeerStays(sessions0: seq<Session>, connected0: nat, i: nat)
      requires Descends(sessions0, connected0, sessions, connected) && DistinctIds(sessions0) && i < |sessions|
      ensures PeerOf(sessions0, sessions[i].id) == sessions[i].peer
    {
      hide DistinctIds;
      assert GoesBack(sessions[i], i < connected, sessions0, connected0);
      var j :| 0 <= j < |sessions0| && SameSession(sessions0[j], sessions[i]);
      WhereIs(sessions0, j);
    }

    lemma DropStarts(p: Addr)
      requires Inv() && p in states && p in bodies
      ensures SameIndex(bodies[p], bodies[p]) && IndexOk(bodies[p]) && OwnersBelow(bodies[p], 0) == {}
      ensures Reduced(chains, {}, chains) && ClosingsSent(sessions, bodies[p], 0, sent, sent)
      ensures queue == Kept(queue, states.Keys)
    {
      hide SessionsOk, TableOk, QueueOk, OrderOk, ChainsOk, BirthsOk;
      NothingChanges();
      assert IndexOk(bodies[p]);
      hide RefsOk;
    }

    lemma SameIndexRemaining(b: Body, c: Body)
      requires SameIndex(b, c)
      ensures b.remaining == c.remaining
    {
    }

    lemma CloseStarts(p: Addr)
      requires Inv() && queue != [] && p == head == queue[0]
      requires p in states && states[p].resends == 0 && !states[p].closing
      ensures p in bodies && FirstForOwners(bodies[p], p, chains) && IndexOk(bodies[p])
      ensures PacketsOk(states[p := states[p].(payload := CloseRequest)], bodies, queue, chains, births, clock, NULL,
                        {})
      ensures SessionsOk(states[p := states[p].(payload := CloseRequest)], bodies, chains, {}, sessions, connected)
      ensures states[p := states[p].(payload := CloseRequest)].Keys == states.Keys
    {
      hide SessionsOk, TableOk, QueueOk, PacketsOk;
      HeadAt(p);
      PacketsRestated(states, bodies, queue, chains, births, clock, p, states[p].(payload := CloseRequest));
      SessionsRestated(states, states[p := states[p].(payload := CloseRequest)], bodies, chains, sessions, connected);
      forall j: nat | j < bodies[p].remaining
        ensures var k := IndexAt(bodies[p], j);
          && k < |bodies[p].slots|
          && var o := bodies[p].slots[k].owner;
          && o in chains && chains[o] != [] && chains[o][0] == Loc(p, k)
      {
        FirstForOwner(p, j);
      }
    }

    /** What the resend counters buy: the exhausted head comes first in the chain of each of its owners. */
    lemma FirstForOwner(p: Addr, j: nat)
      requires Inv() && queue != [] && p == queue[0] && p in states && states[p].resends == 0 && !states[p].closing
      requires p in bodies && j < bodies[p].remaining
      ensures IndexOk(bodies[p])
      ensures var k := IndexAt(bodies[p], j); var o := bodies[p].slots[k].owner;
        o in chains && chains[o] != [] && chains[o][0] == Loc(p, k)
    {
      hide SessionsOk, TableOk, QueueOk, OrderOk, ChainsOk, BirthsOk, SessionOk, ChainKeysOk;
      OwnerAt(p, j);
      var k := IndexAt(bodies[p], j);
      var o := bodies[p].slots[k].owner;
      var session := lookup[o] - 1;
      var i :| 0 <= i < |chains[o]| && chains[o][i] == Loc(p, k);
      RecordOk(session, {});
      LinkOwed(bodies, chains, o, 0);
      OrdinaryChain(states, bodies, chains, sessions[session], session < connected, i);
      ExhaustedHeadIsFirst(states, queue, births, chains, o, i);
    }

    lemma CloseContinues(p: Addr, b: Body, i: nat, chains0: map<nat, seq<Loc>>)
      requires Packets(NULL, {}) && Table() && ChainKeysOk(sessions, chains)
      requires p in bodies && SameIndex(b, bodies[p]) && i < b.remaining == bodies[p].remaining
      requires FirstForOwners(b, p, chains0) && Reduced(chains0, OwnersBelow(b, i), chains)
      ensures lookup.Length == ID_COUNT && i < |bodies[p].slots|
      ensures var k := bodies[p].slots[i].index;
        && k < |bodies[p].slots| && k == IndexAt(b, i)
        && var o := bodies[p].slots[k].owner;
        && o < ID_COUNT && 1 <= lookup[o] <= |sessions| && sessions[lookup[o] - 1].id == o
        && b.slots[IndexAt(b, i)].owner == o && o !in OwnersBelow(b, i)
        && o in chains && chains[o] != [] && chains[o][0] == Loc(p, k)
        && o in chains0 && chains0[o] != [] && chains0[o][0] == Loc(p, k)
    {
      hide OrderOk, ChainsOk, BirthsOk, TableOk, RefsOk, ChainKeysOk;
      OwnerAt(p, i);
      SameOwners(b, bodies[p]);
      OwnerNotDroppedYet(b, p, chains0, i);
    }

    lemma CloseEnds(p: Addr, b: Body, dropped: set<nat>, queue0: seq<Addr>, chains0: map<nat, seq<Loc>>, state: State)
      requires Queue() && Packets(NULL, {}) && SessionsOk(states, bodies, chains, dropped, sessions, connected)
      requires p in bodies && SameIndex(b, bodies[p]) && FirstForOwners(b, p, chains0)
      requires dropped == OwnersBelow(b, b.remaining) && Reduced(chains0, dropped, chains)
      requires queue0 != [] && queue0[0] == p && queue == Kept(queue0, states.Keys)
      requires p in states && !states[p].closing && state.closing && state.resends <= RESENDS
      ensures queue != [] && queue[0] == p && queue[1..] == Kept(queue0[1..], states[p := state].Keys)
      ensures PacketsOk(states[p := state], bodies, queue[1..] + [p], chains, births, clock, NULL, {})
      ensures SessionsOk(states[p := state], bodies, chains, {}, sessions, connected)
    {
      hide PacketsOk, SessionsOk, QueueOk, Kept;
      assert states[p := state].Keys == states.Keys;
      KeptHead(queue0, states.Keys);
      RotatedClosing(p, state);
      OnlyDroppedOwe(p, b, dropped, chains0);
      SessionsClosed(states, bodies, chains, dropped, sessions, connected, p, state);
    }

    lemma RotatedClosing(p: Addr, state: State)
      requires Queue() && Packets(NULL, {}) && queue != [] && queue[0] == p && p in states && state.closing
      requires state.resends <= RESENDS
      ensures PacketsOk(states[p := state], bodies, queue[1..] + [p], chains, births, clock, NULL, {})
    {
      hide RefsOk, ChainsOk;
      OrderRotated(states, states[p := state], queue, births);
    }

    lemma OnlyDroppedOwe(p: Addr, b: Body, dropped: set<nat>, chains0: map<nat, seq<Loc>>)
      requires Packets(NULL, {}) && p in bodies && SameIndex(b, bodies[p]) && FirstForOwners(b, p, chains0)
      requires dropped == OwnersBelow(b, b.remaining) && Reduced(chains0, dropped, chains)
      ensures forall o, i {:trigger chains[o][i]} | o in chains && 0 <= i < |chains[o]| && chains[o][i].packet == p ::
        o in dropped
      ensures forall o :: o in chains && o in dropped ==> |chains[o]| == 1 && chains[o][0].packet == p
    {
      hide OrderOk, ChainsOk, BirthsOk, RefsOk;
      SameOwners(b, bodies[p]);
      forall o: nat, i: nat | o in chains && i < |chains[o]| && chains[o][i].packet == p
        ensures o in dropped
      {
        LinkedOwners(bodies, chains, p, o, i);
      }
    }

    /** Handles the oldest packet in the queue after its timer has run out. */
    method Retransmit(now: Timespec)
      requires Inv() && queue != []
      modifies `next, `prev, `head, `tail, `queue, `states, `bodies, `chains, `sessions, `connected, `sent, lookup
      ensures Inv()
      ensures Fired(old(queue), old(states), now, queue, states)
      ensures old(queue)[0] in old(states) && old(queue)[0] in old(bodies)
      ensures Handled(old(bodies)[old(queue)[0]], old(states)[old(queue)[0]], old(sessions), old(lookup[..]),
                      old(chains), chains, old(sent), sent)
      ensures Outlived(old(chains), chains) && Descends(old(sessions), old(connected), sessions, connected)
      ensures queue == [] ==> tail == old(queue)[0] != NULL
      ensures var p := old(queue)[0];
        old(states)[p].resends == 0 && !old(states)[p].closing ==>
          && p in bodies && bodies[p].remaining == old(bodies)[p].remaining
          && FirstForOwners(old(bodies)[p], p, old(chains))
      ensures Dealt(old(queue)[0], old(states)[old(queue)[0]], Parties(old(sessions), old(connected), old(bodies)),
                    old(chains), Parties(sessions, connected, bodies))
      ensures old(states)[old(queue)[0]].resends > 0 ==> lookup[..] == old(lookup[..])
      ensures old(Logged()) ==> Logged()
    {
      hide PacketsOk, QueueOk, TableOk, SessionsOk, ChainKeysOk, Fired, Outlived, IndexOk, Transmissions, OwnersBelow;
      hide Reduced, ClosingsSent;
      hide Descends, Recorded, SameIndex, FirstForOwners, Framed, SentLogged, OwnersDropped, Terminated;
      var p := head;
      HeadAt(p);
      ghost var gone := if states[p].resends > 0 then {} else OwnersBelow(bodies[p], bodies[p].remaining);
      if states[p].resends > 0 {
        if Logged() { ResendGenuine(p); }
        ResendHead(now);
        FiredAgain(old(queue), old(states), now, queue, states);
        NothingOutlived(old(chains), {});
        DescendsSame(sessions, connected, sessions);
        LoggedAfterResend(p, old(states), old(sent));
      } else if states[p].closing {
        TerminateHead(now);
        NothingOutlived(old(chains), gone);
        FiredLast(old(queue), old(states), now, queue, states);
        FreedFramed(p, old(states), old(bodies));
        LoggedAfterClosing(old(states), old(bodies), old(chains), old(sessions), connected, sent, gone);
      } else {
        CloseHead(now);
        FiredClosing(old(queue), old(states), now, queue, states);
        SameIndexRemaining(old(bodies)[p], bodies[p]);
        ReducedOutlived(old(chains), gone);
        LoggedAfterDrop(p, old(bodies)[p], old(states), old(chains), old(sessions), old(connected), old(sent));
      }
    }

    /** What resending a packet will add to what has been sent. */
    lemma ResendGenuine(p: Addr)
      requires Inv() && Logged() && p in bodies && p in states && IndexOk(bodies[p])
      ensures SentLogged(sent + Transmissions(sessions, lookup[..], bodies[p], states[p], bodies[p].remaining), since,
                         sessions, connected, history)
    {
      hide TableOk, ChainKeysOk, OrderOk, BirthsOk, ChainsOk, QueueOk, ChainsLogged, SessionsLogged, SessionOk, RefsOk;
      TableBounds();
      ResentSent(sent, since, sessions, lookup[..], connected, bodies[p], p, states, bodies, chains, history);
    }

    lemma LoggedAfterResend(p: Addr, states0: map<Addr, State>, sent0: seq<Datagram>)
      requires Packets(NULL, {}) && p in states && p in states0
      requires states == states0[p := states[p]] && SameKind(states0[p], states[p])
      requires Recorded(states0, chains, sessions, connected, sent0, since, history) ==>
        SentLogged(sent, since, sessions, connected, history)
      ensures Recorded(states0, chains, sessions, connected, sent0, since, history) ==> Logged()
    {
      hide PacketsOk, ChainsLogged, SessionsLogged, SentLogged;
      LinksAllocated();
      ShortenedKept(states0, chains, states, chains);
      if Recorded(states0, chains, sessions, connected, sent0, since, history) {
        ChainsKept(states0, chains, history, states, chains);
      }
    }

    lemma FreedFramed(p: Addr, states0: map<Addr, State>, bodies0: map<Addr, Body>)
      requires bodies == bodies0 - {p} && states == states0 - {p}
      ensures Framed(states0, bodies0, states, bodies)
    {
    }

    /** Sessions that have been dropped are not connected. */
    lemma NoneDropped(p: Addr, b: Body, chains0: map<nat, seq<Loc>>)
      requires Inv() && IndexOk(b) && FirstForOwners(b, p, chains0)
      requires Reduced(chains0, OwnersBelow(b, b.remaining), chains)
      requires p in states && states[p].closing
      ensures connected <= |sessions|
      ensures forall i :: 0 <= i < connected ==> sessions[i].id !in OwnersBelow(b, b.remaining)
    {
      hide PacketsOk, QueueOk, TableOk, SessionsOk, ChainKeysOk, FirstForOwners, Reduced, OwnersBelow, IndexOk;
      TableBounds();
      forall i | 0 <= i < connected
        ensures sessions[i].id !in OwnersBelow(b, b.remaining)
      {
        RecordOk(i, {});
        if sessions[i].id in OwnersBelow(b, b.remaining) {
          ReducedToPacket(b, p, chains0, chains, sessions[i].id);
        }
      }
    }

    lemma LoggedAfterDrop(p: Addr, b: Body, states0: map<Addr, State>, chains0: map<nat, seq<Loc>>,
                          sessions0: seq<Session>, connected0: nat, sent0: seq<Datagram>)
      requires Inv() && IndexOk(b) && FirstForOwners(b, p, chains0)
      requires Reduced(chains0, OwnersBelow(b, b.remaining), chains)
      requires p in states && states[p].closing && states[p].payload == CloseRequest
      requires forall a :: a in states && a != p ==> a in states0 && states[a] == states0[a]
      requires Descends(sessions0, connected0, sessions, connected)
      requires ClosingsSent(sessions0, b, b.remaining, sent0, sent)
      ensures Recorded(states0, chains0, sessions0, connected0, sent0, since, history) ==> Logged()
    {
      hide PacketsOk, QueueOk, TableOk, SessionsOk, ChainKeysOk, Recorded, FirstForOwners, Reduced, OwnersBelow;
      hide Descends, ClosingsSent;
      hide IndexOk;
      LinksAllocated();
      DroppedKept(b, p, states0, chains0, states, chains);
      ClosingsTo(sessions0, b, b.remaining, sent0, sent);
      NoneDropped(p, b, chains0);
      StillLogged(states0, chains0, sessions0, connected0, sent0);
    }

    lemma NothingOutlived(chains0: map<nat, seq<Loc>>, gone: set<nat>)
      requires chains == chains0 || chains == chains0 - gone
      ensures Outlived(chains0, chains)
    {
    }

    lemma ReducedOutlived(chains0: map<nat, seq<Loc>>, dropped: set<nat>)
      requires Reduced(chains0, dropped, chains)
      ensures Outlived(chains0, chains)
    {
    }

    /** Pings all connected sessions. */
    method BroadcastPing(now: Timespec, later: Timespec) returns (ghost p: Addr)
      requires Inv() && connected > 0
      modifies `next, `prev, `states, `bodies, `head, `tail, `queue, `births, `clock, `sessions, `sent, `chains,
               `pingStamp, `history
      ensures Inv() && pingStamp == now && connected <= |sessions|
      ensures p !in old(states) && queue == old(queue) + [p]
      ensures states == old(states)[p := State(RESENDS, false, later, Ping)]
      ensures Reached(connected, p, old(sessions), old(chains), sessions, chains)
      ensures OnlyNexts(old(bodies), p, bodies)
      ensures sent == old(sent) + PushDatagrams(sessions, connected, Ping)
      ensures history == Pushed(old(history), old(sessions), connected, Ping)
      ensures old(Logged()) ==> Logged()
    {
      p := BroadcastNew(Ping, later);
      pingStamp := now;
    }

    /** Sends a payload to all connected sessions in one new packet. */
    method BroadcastNew(payload: Payload, now: Timespec) returns (p: Addr)
      requires Inv() && connected > 0 && Ordinary(payload)
      modifies `next, `prev, `states, `bodies, `head, `tail, `queue, `births, `clock, `sessions, `sent, `chains,
               `history
      ensures Inv() && connected <= |sessions|
      ensures p !in old(states) && queue == old(queue) + [p]
      ensures states == old(states)[p := State(RESENDS, false, now, payload)]
      ensures Reached(connected, p, old(sessions), old(chains), sessions, chains)
      ensures OnlyNexts(old(bodies), p, bodies)
      ensures sent == old(sent) + PushDatagrams(sessions, connected, payload)
      ensures history == Pushed(old(history), old(sessions), connected, payload)
      ensures old(Logged()) ==> Logged()
    {
      hide PacketsOk, QueueOk, TableOk, SessionsOk, ChainKeysOk, Reached, Recorded, Pushed, NoneClosing, DistinctIds;
      hide PushDatagrams;
      Pushable();
      p := AllocAndBroadcast(payload, now);
      history := Pushed(history, old(sessions), connected, payload);
      LoggedAfterPush(p, payload, old(states), old(chains), old(sessions), old(history), old(sent));
    }

    method AllocAndBroadcast(payload: Payload, now: Timespec) returns (p: Addr)
      requires Inv() && connected > 0
      modifies `next, `prev, `states, `bodies, `head, `tail, `queue, `births, `clock, `sessions, `sent, `chains
      ensures Inv() && connected <= |sessions| == |old(sessions)|
      ensures p !in old(states) && queue == old(queue) + [p]
      ensures states == old(states)[p := State(RESENDS, false, now, payload)]
      ensures Reached(connected, p, old(sessions), old(chains), sessions, chains)
      ensures OnlyNexts(old(bodies), p, bodies)
      ensures sent == old(sent) + PushDatagrams(sessions, connected, payload)
    {
      hide PacketsOk, QueueOk, TableOk, SessionsOk, ChainKeysOk, Youngest, Reached, ButNext;
      TableBounds();
      p := Alloc(connected, payload);
      AllocatedSessions(p, old(states), old(bodies));
      Broadcast(p, now);
      ReachedSameCount(connected, p, old(sessions), old(chains));
      SentPushes(old(sent), payload);
    }

    lemma SentPushes(sent0: seq<Datagram>, payload: Payload)
      requires connected <= |sessions| && |sent| == |sent0| + connected && sent[..|sent0|] == sent0
      requires forall j :: 0 <= j < connected ==>
        sent[|sent0| + j] == Data(sessions[j].peer, sessions[j].wireId, sessions[j].remoteId, payload)
      ensures sent == sent0 + PushDatagrams(sessions, connected, payload)
    {
    }

    lemma Pushable()
      requires Inv()
      ensures connected <= |sessions| && DistinctIds(sessions) && NoneClosing(states, chains, sessions, connected)
      ensures forall i :: 0 <= i < connected ==> sessions[i].wireId == sessions[i].id
    {
      hide PacketsOk, QueueOk, SessionsOk, ChainKeysOk;
      TableDistinct(sessions, connected, lookup[..]);
      forall i | 0 <= i < connected
        ensures SessionOk(states, bodies, chains, {}, sessions[i], true)
      {
        RecordOk(i, {});
      }
    }

    lemma LoggedAfterPush(p: Addr, payload: Payload, states0: map<Addr, State>, chains0: map<nat, seq<Loc>>,
                          sessions0: seq<Session>, history0: map<nat, seq<Payload>>, sent0: seq<Datagram>)
      requires connected <= |sessions0| == |sessions| && DistinctIds(sessions0)
      requires NoneClosing(states0, chains0, sessions0, connected)
      requires forall i :: 0 <= i < connected ==> sessions0[i].wireId == sessions0[i].id
      requires ChainKeysOk(sessions0, chains0) && Ordinary(payload)
      requires p !in states0 && p in states && states == states0[p := states[p]] && !states[p].closing
      requires states[p].payload == payload
      requires Reached(connected, p, sessions0, chains0, sessions, chains)
      requires sent == sent0 + PushDatagrams(sessions, connected, payload)
      requires history == Pushed(history0, sessions0, connected, payload)
      ensures Recorded(states0, chains0, sessions0, connected, sent0, since, history0) ==> Logged()
    {
      hide ChainsLogged, SessionsLogged, SentLogged, Reached, Pushed, DistinctIds, NoneClosing, ChainKeysOk;
      if Recorded(states0, chains0, sessions0, connected, sent0, since, history0) {
        PushedChains(states0, chains0, sessions0, connected, history0, p, states[p], chains, sessions);
        PushedSessions(sessions0, connected, history0, p, payload, chains0, chains, sessions);
        PushedSent(sent0, since, sessions0, connected, history0, p, payload, chains0, chains, sent, sessions);
      }
    }

    lemma ReachedSameCount(n: nat, p: Addr, sessions0: seq<Session>, chains0: map<nat, seq<Loc>>)
      requires Reached(n, p, sessions0, chains0, sessions, chains)
      ensures |sessions| == |sessions0|
    {
    }

    lemma AllocatedSessions(p: Addr, states0: map<Addr, State>, bodies0: map<Addr, Body>)
      requires Packets(p, {}) && SessionsOk(states0, bodies0, chains, {}, sessions, connected)
      requires p in states && states == states0[p := states[p]] && p in bodies && bodies == bodies0[p := bodies[p]]
      ensures SessionsOk(states, bodies, chains, {}, sessions, connected)
    {
      hide SessionsOk, OrderOk, ChainsOk, BirthsOk;
      NothingOwedUnchained(bodies, chains, p);
      SessionsIgnore(states0, bodies0, chains, states, bodies, sessions, connected, p);
    }

    /** Notes the id of the packet that was received last from session `i`. */
    method SetLast(i: nat, id: nat)
      requires Inv() && i < |sessions|
      modifies `sessions
      ensures Inv() && sessions == old(sessions)[i := old(sessions)[i].(remoteIdLast := id)]
      ensures old(Logged()) ==> Logged()
    {
      hide PacketsOk, QueueOk, TableOk, SessionsOk, ChainKeysOk, Recorded;
      LastNoted(i, sessions[i].(remoteIdLast := id));
      sessions := sessions[i := sessions[i].(remoteIdLast := id)];
      LoggedAfterNote(old(sessions));
    }

    lemma NothingSentSince(s: Session)
      ensures GenuineFrom(sent, |sent|, s, history)
    {
    }

    lemma LoggedAfterNote(sessions0: seq<Session>)
      requires Packets(NULL, {}) && |sessions| == |sessions0|
      requires forall j :: 0 <= j < |sessions| ==>
        sessions[j] == sessions0[j].(remoteIdLast := sessions[j].remoteIdLast)
      ensures Recorded(states, chains, sessions0, connected, sent, since, history) ==> Logged()
    {
      hide ChainsLogged, GenuineFrom;
      if Recorded(states, chains, sessions0, connected, sent, since, history) {
        forall i | 0 <= i < connected && i < |sessions|
          ensures Stays(sessions[i], sessions0, connected) && GenuineFrom(sent, |sent|, sessions[i], history)
        {
          NothingSentSince(sessions[i]);
        }
        SentKept(sent, since, sessions0, connected, history, sent, sessions, connected, history);
      }
    }

    method SetShutting(flag: bool)
      requires Inv()
      modifies `shutting
      ensures Inv() && shutting == flag && (old(Logged()) ==> Logged())
    {
      hide PacketsOk, QueueOk, TableOk, SessionsOk, ChainKeysOk, Recorded;
      shutting := flag;
    }

    lemma ServerOwnerAt(p: Addr, j: nat)
      requires Inv() && p in bodies && j < bodies[p].remaining
      ensures lookup.Length == ID_COUNT && j < |bodies[p].slots|
      ensures var k := bodies[p].slots[j].index;
        && k < |bodies[p].slots|
        && var o := bodies[p].slots[k].owner;
        && o < ID_COUNT && 1 <= lookup[o] <= |sessions| && sessions[lookup[o] - 1].id == o && o in chains
        && Loc(p, k) in chains[o]
    {
      hide PacketsOk, QueueOk, TableOk, SessionsOk, ChainKeysOk;
      OwnerAt(p, j);
    }

    lemma LengthOfTable()
      requires Inv()
      ensures lookup.Length == ID_COUNT && connected <= |sessions| <= sessionsLimit
    {
    }

    lemma HasChain(i: nat)
      requires Inv() && i < |sessions|
      ensures sessions[i].id in chains
    {
    }

    /** Sends a datagram that is not queued. */
    method Reply(d: Datagram)
      requires Inv()
      modifies `sent
      ensures Inv() && sent == old(sent) + [d]
      ensures old(Logged()) && !d.Data? ==> Logged()
    {
      hide PacketsOk, QueueOk, TableOk, SessionsOk, ChainKeysOk, Recorded;
      sent := sent + [d];
      if !d.Data? {
        LoggedAfterReply(old(sent));
      }
    }

    lemma LastNoted(i: nat, s: Session)
      requires Inv() && i < |sessions| && s == sessions[i].(remoteIdLast := s.remoteIdLast)
      ensures TableOk(sessions[i := s], connected, lookup[..]) && |sessions[i := s]| <= sessionsLimit
      ensures SessionsOk(states, bodies, chains, {}, sessions[i := s], connected)
      ensures ChainKeysOk(sessions[i := s], chains)
    {
      hide PacketsOk, QueueOk, TableOk, ChainKeysOk, Linked, Consecutive;
      TableSameIds(sessions, sessions[i := s], connected, lookup[..]);
      ChainKeysSame(sessions, sessions[i := s], chains, chains);
      var noted := sessions[i := s];
      forall j | 0 <= j < |noted|
        ensures SessionOk(states, bodies, chains, {}, noted[j], j < connected)
      {
        RecordOk(j, {});
      }
    }

    // -------------------------------------------------------------- shutting down

    /** Puts every session into the closing handshake, dropping whatever was still to be delivered.
        `alone` and `tailNull` are the outcomes of two assertions. The first is that a session which is
        not connected shares its packet with nobody; the second that the tail pointer is null once the
        queue has been emptied, which fails if the queue was empty already and its tail had been left
        behind. */
    method ServerFlush(now: Timespec) returns (alone: bool, tailNull: bool, ghost p: Addr)
      requires Inv()
      modifies `next, `prev, `head, `tail, `queue, `states, `bodies, `births, `clock, `chains, `sessions, `connected,
               `sent, lookup
      ensures Inv()
      ensures old(sessions) == [] ==> unchanged(this) && unchanged(lookup) && tailNull
      ensures old(sessions) != [] ==> FlushedTo(p, old(sessions), now) && ClosingToAll(old(sent))
      ensures old(sessions) != [] ==> (tailNull <==> old(queue) != [] || old(tail) == NULL)
      ensures alone <==> Unshared(old(bodies), old(sessions), old(connected))
      ensures old(Logged()) ==> Logged()
    {
      hide PacketsOk, QueueOk, TableOk, SessionsOk, ChainKeysOk, KeysOk, FlushedTo, ClosingToAll, Unshared, Recorded;
      p, tailNull := NULL, true;
      HeadsAllocated();
      if |sessions| == 0 {
        alone := true;
        return;
      }
      alone, tailNull, p := CloseAll(now);
      LoggedAfterFlush(p, old(states), old(chains), old(sessions), old(connected), old(sent), now);
    }

    method CloseAll(now: Timespec) returns (alone: bool, tailNull: bool, ghost p: Addr)
      requires Inv() && sessions != [] && forall i :: connected <= i < |sessions| ==> sessions[i].head.packet in bodies
      modifies `next, `prev, `head, `tail, `queue, `states, `bodies, `births, `clock, `chains, `sessions, `connected,
               `sent, lookup
      ensures Inv() && FlushedTo(p, old(sessions), now) && ClosingToAll(old(sent))
      ensures tailNull <==> old(queue) != [] || old(tail) == NULL
      ensures alone <==> Unshared(old(bodies), old(sessions), old(connected))
    {
      hide PacketsOk, QueueOk, TableOk, SessionsOk, ChainKeysOk, KeysOk, FlushedTo, ClosingToAll, Unshared;
      ghost var keys := chains;
      EveryoneHasChain();
      alone := UseServerIds();
      connected := 0;
      ReleaseAll();
      chains := map o | o in keys :: [];
      ChainKeysSame(old(sessions), sessions, keys, chains);
      tailNull := tail == NULL;
      ghost var renamed := sessions;
      p := BroadcastClose(now);
      FlushedFrom(p, old(sessions), renamed, now);
    }

    lemma HeadsAllocated()
      requires Inv()
      ensures forall i :: connected <= i < |sessions| ==> sessions[i].head.packet in bodies
      ensures sessions == [] ==> Unshared(bodies, sessions, connected)
    {
      hide PacketsOk, QueueOk, TableOk, SessionsOk, ChainKeysOk;
      forall i | connected <= i < |sessions|
        ensures sessions[i].head.packet in bodies
      {
        OnlyPacket(i);
      }
    }

    lemma LoggedAfterFlush(p: Addr, states0: map<Addr, State>, chains0: map<nat, seq<Loc>>, sessions0: seq<Session>,
                           connected0: nat, sent0: seq<Datagram>, now: Timespec)
      requires FlushedTo(p, sessions0, now)
      ensures Recorded(states0, chains0, sessions0, connected0, sent0, since, history) ==> Logged()
    {
      hide Recorded, AllClosing;
      AllOweClosing(p);
      if Recorded(states0, chains0, sessions0, connected0, sent0, since, history) {
        FlushedRecorded(states0, chains0, sessions0, connected0, sent0, since, history, p, states, chains, sessions,
                        sent);
      }
    }

    lemma AllOweClosing(p: Addr)
      requires AllClosing(p, sessions, chains)
      ensures forall o :: o in chains ==> chains[o] != [] && forall i :: 0 <= i < |chains[o]| ==>
        chains[o][i].packet == p
      ensures forall i :: 0 <= i < |sessions| ==> sessions[i].wireId == sessions[i].id
    {
      forall o | o in chains
        ensures |chains[o]| == 1 && chains[o][0].packet == p
      {
        var j :| 0 <= j < |sessions| && sessions[j].id == o;
      }
    }

    lemma FlushedFrom(p: Addr, sessions0: seq<Session>, sessions1: seq<Session>, now: Timespec)
      requires |sessions1| == |sessions0| && FlushedTo(p, sessions1, now)
      requires forall j :: 0 <= j < |sessions1| ==> sessions1[j] == sessions0[j].(wireId := sessions0[j].id)
      ensures FlushedTo(p, sessions0, now)
    {
    }

    /** From now on every session is known by the id the server assigned, and by no other. */
    method UseServerIds() returns (alone: bool)
      requires Table() && forall i :: connected <= i < |sessions| ==> sessions[i].head.packet in bodies
      modifies `sessions, lookup
      ensures |sessions| == |old(sessions)| && TableOk(sessions, 0, lookup[..])
      ensures forall j :: 0 <= j < |sessions| ==> sessions[j] == old(sessions)[j].(wireId := old(sessions)[j].id)
      ensures alone <==> Unshared(bodies, old(sessions), connected)
    {
      hide TableOk;
      TableBounds();
      ConnectedIds(sessions, connected, lookup[..]);
      alone := true;
      var i := connected;
      while i < |sessions|
        modifies `sessions, lookup
        invariant connected <= i <= |sessions| == |old(sessions)| && Table()
        invariant alone <==> forall j :: connected <= j < i ==>
          old(sessions)[j].head.packet in bodies && bodies[old(sessions)[j].head.packet].remaining == 1
        invariant forall j :: 0 <= j < |sessions| ==>
          sessions[j] == if j < i then old(sessions)[j].(wireId := old(sessions)[j].id) else old(sessions)[j]
      {
        RecordIds(sessions, connected, lookup[..], i);
        if bodies[sessions[i].head.packet].remaining != 1 {
          alone := false;
        }
        if sessions[i].wireId != sessions[i].id {
          HandshakeDropped(sessions, connected, lookup[..], i);
          LookupClear(sessions[i].wireId);
          sessions := sessions[i := sessions[i].(wireId := sessions[i].id)];
        }
        i := i + 1;
      }
      NobodyConnected(sessions, connected, lookup[..]);
    }

    /** Every session is left with one closing request, packet `p`, and nothing else is queued. */
    ghost predicate FlushedTo(p: Addr, sessions0: seq<Session>, now: Timespec)
      reads this
    {
      && connected == 0 && queue == [p] && states == map[p := State(RESENDS, true, now, CloseRequest)]
      && |sessions| == |sessions0| && AllClosing(p, sessions, chains)
      && forall j :: 0 <= j < |sessions| ==>
           var s := sessions0[j]; sessions[j] == s.(wireId := s.id, head := Loc(p, j), tail := sessions[j].tail)
    }

    /** The last |sessions| datagrams are closing requests to the sessions, last one first. */
    ghost predicate ClosingToAll(sent0: seq<Datagram>)
      reads `sent, `sessions
    {
      && |sent| == |sent0| + |sessions| && sent[..|sent0|] == sent0
      && forall j :: 0 <= j < |sessions| ==>
           sent[|sent| - 1 - j] == Data(sessions[j].peer, sessions[j].id, 0, CloseRequest)
    }

    /** Releases every packet in the queue, whoever owes it. */
    method ReleaseAll()
      requires Queue() && KeysOk(states, bodies, queue, NULL)
      modifies `next, `prev, `head, `tail, `queue, `states, `bodies
      ensures Queue() && queue == [] && states == map[] && bodies == map[]
      ensures tail == if old(queue) == [] then old(tail) else NULL
    {
      var p := head;
      while p != NULL
        invariant Queue() && KeysOk(states, bodies, queue, NULL) && p == head
        invariant queue == [] ==> tail == if old(queue) == [] then old(tail) else NULL
        invariant old(queue) == [] ==> queue == [] && tail == old(tail)
        decreases |queue|
      {
        assert p in next;
        var following := next[p];
        KeysCut(states, bodies, queue, 0);
        FollowsHead();
        Release(p, 0);
        p := following;
      }
      assert states.Keys == {};
    }

    lemma FollowsHead()
      requires Queue() && queue != []
      ensures head in next && next[head] == if Cut(queue, 0) == [] then NULL else Cut(queue, 0)[0]
    {
    }

    /** Sends one closing request to all sessions, none of which is connected or owes anything. */
    method BroadcastClose(now: Timespec) returns (p: Addr)
      requires Queue() && queue == [] && states == map[] && bodies == map[]
      requires Table() && Config() && connected == 0 && sessions != [] && ChainKeysOk(sessions, chains)
      requires forall j :: 0 <= j < |sessions| ==> sessions[j].wireId == sessions[j].id && sessions[j].id in chains
      requires forall o :: o in chains ==> chains[o] == []
      modifies `next, `prev, `head, `tail, `queue, `states, `bodies, `births, `clock, `chains, `sessions, `sent
      ensures Inv() && FlushedTo(p, old(sessions), now) && ClosingToAll(old(sent))
    {
      hide PacketsOk, QueueOk, TableOk, ChainKeysOk, ClosingSlots, ClosingToAll, AllClosing, SessionsOk;
      NothingAllocated();
      p := Alloc(|sessions|, CloseRequest);
      NewBirth(p);
      SendClosings(p);
      QueueClosing(p, old(sessions), now);
    }

    /** Queues the closing request that all sessions have been sent. */
    method QueueClosing(p: Addr, ghost sessions0: seq<Session>, now: Timespec)
      requires Queue() && queue == [] && Config() && connected == 0 && sessions != []
      requires TableOk(sessions0, connected, lookup[..]) && ChainKeysOk(sessions0, chains)
      requires |sessions| == |sessions0| && forall j :: 0 <= j < |sessions| ==>
        && sessions0[j].wireId == sessions0[j].id && sessions[j].id in chains
        && sessions[j] == sessions0[j].(head := Loc(p, j), tail := Loc(p, sessions0[j].tail.slot))
      requires p != NULL && p in bodies && bodies.Keys == {p} && ClosingSlots(bodies[p], sessions0, 0)
      requires states.Keys == {p} && states[p].payload == CloseRequest && p in births && births[p] < clock
      modifies `next, `prev, `states, `head, `tail, `queue, `chains
      ensures Inv() && FlushedTo(p, sessions0, now)
    {
      hide PacketsOk, QueueOk, TableOk, ChainKeysOk, ClosingSlots, AllClosing, SessionsOk, FlushedTo;
      Enqueue(p, true, now);
      StatesOf(p);
      ghost var closing := ClosingChains(p, sessions0);
      chains := closing;
      NowFlushed(p, sessions0, now);
    }

    lemma StatesOf(p: Addr)
      requires p in states
      ensures states.Keys == {p} ==> states == map[p := states[p]]
    {
    }

    /** The chains with nothing but the closing request. */
    lemma ClosingChains(p: Addr, sessions0: seq<Session>) returns (closing: map<nat, seq<Loc>>)
      requires Queue() && Config() && connected == 0 && sessions != [] && queue == [p]
      requires TableOk(sessions0, connected, lookup[..]) && ChainKeysOk(sessions0, chains)
      requires |sessions| == |sessions0| && forall j :: 0 <= j < |sessions| ==>
        && sessions0[j].wireId == sessions0[j].id && sessions[j].id in chains
        && sessions[j] == sessions0[j].(head := Loc(p, j), tail := Loc(p, sessions0[j].tail.slot))
      requires p != NULL && p in bodies && bodies.Keys == {p} && ClosingSlots(bodies[p], sessions0, 0)
      requires states.Keys == {p} && states[p].closing && states[p].resends <= RESENDS && p in births
      requires births[p] < clock
      ensures PacketsOk(states, bodies, queue, closing, births, clock, NULL, {})
      ensures SessionsOk(states, bodies, closing, {}, sessions, connected) && ChainKeysOk(sessions, closing)
      ensures Table() && AllClosing(p, sessions, closing)
    {
      hide PacketsOk, SessionsOk, TableOk, ClosingSlots, AllClosing, ChainKeysOk, QueueOk;
      closing := map o | o in chains :: [Loc(p, IndexOf(o))];
      ClosingEverything(p, sessions0, closing);
    }

    lemma NowFlushed(p: Addr, sessions0: seq<Session>, now: Timespec)
      requires connected == 0 && queue == [p] && AllClosing(p, sessions, chains)
      requires states == map[p := State(RESENDS, true, now, CloseRequest)]
      requires |sessions| == |sessions0| && forall j :: 0 <= j < |sessions| ==>
        sessions[j] == sessions0[j].(head := sessions[j].head, tail := sessions[j].tail)
      ensures FlushedTo(p, sessions0, now)
    {
    }

    /** Points every session, last one first, to its own slot of packet `p` and sends it the packet. */
    method SendClosings(p: Addr)
      requires p in states && p in bodies && bodies.Keys == {p}
      requires |bodies[p].slots| == bodies[p].remaining == |sessions|
      requires forall j :: 0 <= j < |sessions| ==> sessions[j].wireId == sessions[j].id
      requires states[p].payload == CloseRequest
      modifies `bodies, `sessions, `sent
      ensures p in bodies && bodies.Keys == {p} && |sessions| == |old(sessions)|
      ensures ClosingSlots(bodies[p], old(sessions), 0)
      ensures forall j :: 0 <= j < |sessions| ==>
        var s := old(sessions)[j];
        sessions[j] == s.(head := Loc(p, j), tail := Loc(p, s.tail.slot))
      ensures ClosingToAll(old(sent))
    {
      hide ClosingSlots;
      var i: nat := |sessions|;
      NoSlotsYet(bodies[p], i);
      while i > 0
        invariant i <= |sessions| == |old(sessions)| && p in bodies && bodies.Keys == {p}
        invariant ClosingSlots(bodies[p], old(sessions), i)
        invariant forall j :: 0 <= j < |sessions| ==>
          var s := old(sessions)[j];
          sessions[j] == if j < i then s else s.(head := Loc(p, j), tail := Loc(p, s.tail.slot))
        invariant |sent| == |old(sent)| + |sessions| - i && sent[..|old(sent)|] == old(sent)
        invariant forall j :: i <= j < |sessions| ==>
          sent[|old(sent)| + |sessions| - 1 - j] == Data(old(sessions)[j].peer, old(sessions)[j].id, 0,
                                                         states[p].payload)
      {
        i := i - 1;
        ClosingSlotsNext(p, old(sessions), i);
        sessions := sessions[i := sessions[i].(head := Loc(p, i), tail := Loc(p, sessions[i].tail.slot))];
        bodies := WithSlot(bodies, Loc(p, i),
          SlotAt(bodies, Loc(p, i)).(owner := sessions[i].id, next := Loc(NULL, SlotAt(bodies, Loc(p, i)).next.slot),
                                     index := i, remoteId := 0));
        sent := sent + [Data(sessions[i].peer, sessions[i].wireId, 0, states[p].payload)];
      }
    }

    ghost function IndexOf(id: nat): nat
      reads lookup
    {
      if id < lookup.Length && lookup[id] > 0 then lookup[id] - 1 else 0
    }

    lemma NothingAllocated()
      requires Queue() && queue == [] && states == map[] && bodies == map[]
      requires forall o :: o in chains ==> chains[o] == []
      ensures Packets(NULL, {})
    {
    }

    lemma NoSlotsYet(b: Body, n: nat)
      requires |b.slots| == b.remaining == n == |sessions|
      ensures ClosingSlots(b, sessions, n)
    {
    }

    lemma ClosingSlotsNext(p: Addr, sessions0: seq<Session>, i: nat)
      requires p in bodies && ClosingSlots(bodies[p], sessions0, i + 1) && i < |sessions0|
      ensures i < |bodies[p].slots|
      ensures var slot := SlotAt(bodies, Loc(p, i)).(owner := sessions0[i].id,
          next := Loc(NULL, SlotAt(bodies, Loc(p, i)).next.slot), index := i, remoteId := 0);
        ClosingSlots(WithSlot(bodies, Loc(p, i), slot)[p], sessions0, i)
    {
    }

    lemma EveryoneHasChain()
      requires Inv()
      ensures forall j :: 0 <= j < |sessions| ==> sessions[j].id in chains
      ensures KeysOk(states, bodies, queue, NULL)
    {
    }

    lemma NewBirth(p: Addr)
      requires Packets(p, {}) && p in states
      ensures p in births && births[p] < clock
    {
    }

    lemma ClosingEverything(p: Addr, sessions0: seq<Session>, closing: map<nat, seq<Loc>>)
      requires TableOk(sessions0, connected, lookup[..]) && connected == 0 && ChainKeysOk(sessions0, chains)
      requires sessions != []
      requires |sessions| == |sessions0| && forall j :: 0 <= j < |sessions| ==>
        && sessions[j].id == sessions0[j].id && sessions[j].wireId == sessions0[j].wireId == sessions[j].id
        && sessions[j].head == Loc(p, j) && sessions[j].tail.packet == p && sessions[j].id in chains
      requires closing.Keys == chains.Keys && forall o :: o in closing ==> closing[o] == [Loc(p, IndexOf(o))]
      requires p != NULL && p in bodies && bodies.Keys == {p} && ClosingSlots(bodies[p], sessions0, 0)
      requires states.Keys == {p} && states[p].closing && states[p].resends <= RESENDS && p in births
      requires births[p] < clock
      requires queue == [p]
      ensures PacketsOk(states, bodies, queue, closing, births, clock, NULL, {})
      ensures SessionsOk(states, bodies, closing, {}, sessions, connected) && ChainKeysOk(sessions, closing)
      ensures Table() && AllClosing(p, sessions, closing)
    {
      hide PacketsOk, SessionsOk, TableOk, ClosingSlots, AllClosing, ChainKeysOk;
      ClosingTable(p, sessions0, closing);
      SlotsOfSame(bodies[p], sessions0);
      AllClosingOk(states, p, bodies[p], sessions, closing, births, clock);
      assert bodies == map[p := bodies[p]];
    }

    lemma ClosingTable(p: Addr, sessions0: seq<Session>, closing: map<nat, seq<Loc>>)
      requires TableOk(sessions0, connected, lookup[..]) && connected == 0 && ChainKeysOk(sessions0, chains)
      requires |sessions| == |sessions0| && forall j :: 0 <= j < |sessions| ==>
        && sessions[j].id == sessions0[j].id && sessions[j].wireId == sessions0[j].wireId == sessions[j].id
        && sessions[j].head == Loc(p, j) && sessions[j].tail.packet == p && sessions[j].id in chains
      requires closing.Keys == chains.Keys && forall o :: o in closing ==> closing[o] == [Loc(p, IndexOf(o))]
      ensures Table() && AllClosing(p, sessions, closing) && ChainKeysOk(sessions, closing)
    {
      hide TableOk, ChainKeysOk;
      TableSameIds(sessions0, sessions, connected, lookup[..]);
      ChainKeysSame(sessions0, sessions, chains, closing);
      EveryoneClosing(p, closing);
    }

    lemma EveryoneClosing(p: Addr, closing: map<nat, seq<Loc>>)
      requires Table() && ChainKeysOk(sessions, closing)
      requires forall j :: 0 <= j < |sessions| ==>
        && sessions[j].wireId == sessions[j].id && sessions[j].head == Loc(p, j) && sessions[j].tail.packet == p
        && sessions[j].id in closing
      requires forall o :: o in closing ==> closing[o] == [Loc(p, IndexOf(o))]
      ensures AllClosing(p, sessions, closing)
    {
      hide TableOk, ChainKeysOk, IndexOf;
      forall j | 0 <= j < |sessions|
        ensures IndexOf(sessions[j].id) == j
      {
        IndexOfRecord(j);
      }
    }

    lemma IndexOfRecord(j: nat)
      requires Table() && j < |sessions|
      ensures IndexOf(sessions[j].id) == j
    {
    }

    lemma SlotsOfSame(b: Body, sessions0: seq<Session>)
      requires ClosingSlots(b, sessions0, 0) && |sessions| == |sessions0|
      requires forall j :: 0 <= j < |sessions| ==> sessions[j].id == sessions0[j].id
      ensures ClosingSlots(b, sessions, 0)
    {
    }
  }
}
