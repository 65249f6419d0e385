/** What the invariant says in the terms of the data structures themselves, and the checks of the
    program's own run-time consistency checks, walked the way it walks. */
module Assertions {
  import opened Basics
  import opened IndexSet
  import opened ProxyState
  import opened ProxyServer
  import opened ChainLemmas
  import opened QueueLemmas
  import opened TableLemmas
  import opened History
  import opened Draining

  /** Session `o` still owes an acknowledgement for packet `a`. */
  ghost predicate Owing(chains: map<nat, seq<Loc>>, o: nat, a: Addr) {
    o in chains && exists i :: 0 <= i < |chains[o]| && chains[o][i].packet == a
  }

  function OwnerOf(b: Body, j: nat): nat
    requires j < b.remaining && IndexOk(b)
  {
    b.slots[IndexAt(b, j)].owner
  }

  lemma PositionsDiffer(b: Body, i: nat, j: nat)
    requires IndexOk(b) && i < j < b.remaining
    ensures OwnerOf(b, i) != OwnerOf(b, j)
  {
    assert IndexAt(b, i) != IndexAt(b, j);
  }

  /** The sessions at two positions of a packet are different ones. */
  lemma OwnersDistinct(server: Server, a: Addr, i: nat, j: nat)
    requires server.Inv() && a in server.bodies && i < j < server.bodies[a].remaining
    ensures IndexOk(server.bodies[a])
    ensures OwnerOf(server.bodies[a], i) != OwnerOf(server.bodies[a], j)
  {
    BodyOk(server, a);
    hide Server.Inv;
    PositionsDiffer(server.bodies[a], i, j);
  }

  lemma BodyOk(server: Server, a: Addr)
    requires server.Inv() && a in server.bodies
    ensures IndexOk(server.bodies[a]) && 0 < server.bodies[a].remaining
    ensures a in server.states && a in server.queue && a != NULL && NULL !in server.states && Distinct(server.queue)
  {
  }

  lemma OwnerBelow(b: Body, n: nat, o: nat) returns (j: nat)
    requires IndexOk(b) && n <= b.remaining && o in OwnersBelow(b, n)
    ensures j < n && OwnerOf(b, j) == o
  {
    j :| j < n && b.slots[IndexAt(b, j)].owner == o;
  }

  lemma NotBelow(b: Body, n: nat)
    requires IndexOk(b) && n < b.remaining && forall j: nat :: j < n ==> OwnerOf(b, j) != OwnerOf(b, n)
    ensures OwnerOf(b, n) !in OwnersBelow(b, n)
  {
    forall o | o in OwnersBelow(b, n)
      ensures o != OwnerOf(b, n)
    {
      var j := OwnerBelow(b, n, o);
    }
  }

  lemma {:induction false} OwnersCounted(server: Server, a: Addr, n: nat)
    requires server.Inv() && a in server.bodies && n <= server.bodies[a].remaining
    ensures IndexOk(server.bodies[a]) && |OwnersBelow(server.bodies[a], n)| == n
  {
    hide Server.Inv, IndexOk;
    BodyOk(server, a);
    var b := server.bodies[a];
    if n == 0 {
      assert OwnersBelow(b, 0) == {};
    } else {
      OwnersCounted(server, a, n - 1);
      OwedFromNext(b, n - 1);
      forall j: nat | j < n - 1
        ensures OwnerOf(b, j) != OwnerOf(b, n - 1)
      {
        OwnersDistinct(server, a, j, n - 1);
      }
      NotBelow(b, n - 1);
    }
  }

  /** In every reachable state a packet's counter is the number of sessions whose chain contains it. */
  lemma RemainingCountsSessions(server: Server, a: Addr)
    requires server.Inv() && a in server.bodies
    ensures |set o | o in server.chains && Owing(server.chains, o, a)| == server.bodies[a].remaining
  {
    hide Server.Inv, IndexOk;
    BodyOk(server, a);
    var b := server.bodies[a];
    OwnersCounted(server, a, b.remaining);
    forall o | o in server.chains && Owing(server.chains, o, a)
      ensures o in OwnersBelow(b, b.remaining)
    {
      OwingIsEnumerated(server, a, o);
    }
    forall o | o in OwnersBelow(b, b.remaining)
      ensures Owing(server.chains, o, a)
    {
      var j := OwnerBelow(b, b.remaining, o);
      EnumeratedIsOwing(server, a, j);
    }
    assert (set o | o in server.chains && Owing(server.chains, o, a)) == OwnersBelow(b, b.remaining);
  }

  lemma OwingIsEnumerated(server: Server, a: Addr, o: nat)
    requires server.Inv() && a in server.bodies && Owing(server.chains, o, a)
    ensures IndexOk(server.bodies[a]) && o in OwnersBelow(server.bodies[a], server.bodies[a].remaining)
  {
    hide QueueOk, TableOk, SessionsOk, ChainKeysOk, OrderOk, BirthsOk, ChainsOk;
    var i :| 0 <= i < |server.chains[o]| && server.chains[o][i].packet == a;
    LinkOwed(server.bodies, server.chains, o, i);
    EnumeratesOwed(server.bodies[a], server.chains[o][i].slot);
  }

  lemma EnumeratedIsOwing(server: Server, a: Addr, j: nat)
    requires server.Inv() && a in server.bodies && j < server.bodies[a].remaining
    ensures IndexOk(server.bodies[a]) && Owing(server.chains, OwnerOf(server.bodies[a], j), a)
  {
    hide QueueOk, TableOk, SessionsOk, ChainKeysOk, OrderOk, BirthsOk, ChainsOk, RefsOk;
    server.OwnerAt(a, j);
    BodyOk(server, a);
  }

  /** In every reachable state a packet is exactly once in the queue, and every link of a chain leads
      to a packet in the queue: nothing reaches memory that has been released. */
  lemma NothingDangles(server: Server)
    requires server.Inv()
    ensures forall a :: a in server.bodies <==> a in server.queue
    ensures Distinct(server.queue)
    ensures forall o, i {:trigger server.chains[o][i]} :: o in server.chains && 0 <= i < |server.chains[o]| ==>
      server.chains[o][i].packet in server.queue
  {
  }

  // ---------------------------------------------------------------- the run-time consistency checks

  /** What a walk along the chain of session `i` meets. */
  lemma Walk(server: Server, i: nat)
    requires server.Inv() && i < |server.sessions|
    ensures var s := server.sessions[i];
      && s.id in server.chains && var c := server.chains[s.id];
      && Linked(server.bodies, c)
      && (if c == [] then s.head.packet == NULL else s.head == c[0])
      && (i >= server.connected ==> |c| == 1)
      && (i < server.connected && c != [] ==> s.tail == c[|c| - 1])
      && (i < server.connected ==> s.remoteId < REMOTE_IDS && Consecutive(server.bodies, c, s.remoteId))
  {
    hide QueueOk, PacketsOk, TableOk, ChainKeysOk, Linked, Consecutive;
    server.RecordOk(i, {});
    assert SessionOk(server.states, server.bodies, server.chains, {}, server.sessions[i], i < server.connected);
  }

  /** One step of a walk along a chain. */
  lemma WalkOn(bodies: map<Addr, Body>, c: seq<Loc>, x: nat)
    requires Linked(bodies, c) && x < |c|
    ensures var l := c[x];
      && l.packet != NULL && l.packet in bodies && l.slot < |bodies[l.packet].slots|
      && var next := bodies[l.packet].slots[l.slot].next;
         if x == |c| - 1 then next.packet == NULL else next == c[x + 1]
  {
  }

  /** Looks for a packet in the queue. */
  method FindQueued(server: Server, p: Addr) returns (found: bool)
    requires server.Inv()
    ensures found <==> p in server.bodies
  {
    hide PacketsOk, TableOk, SessionsOk, ChainKeysOk;
    NothingDangles(server);
    var q := server.head;
    ghost var i := 0;
    while q != p
      invariant i <= |server.queue| && q == if i < |server.queue| then server.queue[i] else NULL
      invariant p !in server.queue[..i]
      decreases |server.queue| - i
    {
      if q == NULL {
        return false;
      }
      assert q in server.next;
      q := server.next[q];
      i := i + 1;
    }
    return p != NULL;
  }

  // The flags of a packet that belongs to a handshake, and of one that wants to be acknowledged.
  const SYN := 0x10
  const ACKREQ := 0x08

  /** The first byte of a packet: its flags, apart from the one that marks a repetition, above the high bits of its
      length. */
  function FirstByte(p: Payload): nat {
    (if IsSyn(p) then SYN else ACKREQ) + Length(p) / 0x100 % 8
  }

  /** A packet must have a flag and a valid length and be linked to by every session it names, and its slots must
      name different sessions. */
  method CheckPacket(server: Server, p: Addr) returns (ok: bool)
    requires server.Valid() && p in server.bodies
    ensures ok
  {
    hide Server.Inv, Server.Logged, IndexOk, Linked, DistinctOwners;
    BodyOk(server, p);
    PayloadFits(server, p);
    var b := server.bodies[p];
    var first := FirstByte(server.states[p].payload);
    var len := (first * 0x100 + Length(server.states[p].payload) % 0x100) % (MAX_LEN + 1);
    if len < HEADER || len > MAX_LEN || b.remaining == 0 || first / 8 == 0 {
      return false;
    }
    var i := 0;
    while i < b.remaining
      invariant i <= b.remaining
    {
      server.ServerOwnerAt(p, i);
      var k := b.slots[i].index;
      var session := server.sessions[server.LookupGet(b.slots[k].owner)];
      Walk(server, server.LookupGet(b.slots[k].owner));
      ok := FindInChain(server, server.LookupGet(b.slots[k].owner), p, k);
      if !ok {
        return;
      }
      i := i + 1;
    }
    ok := CheckSlots(b);
  }

  /** Compares the sessions that the first slots name with each other. */
  method CheckSlots(b: Body) returns (ok: bool)
    requires IndexOk(b)
    ensures ok
  {
    for i := 0 to b.remaining
    {
      for j := 0 to b.remaining
      {
        if i != j && b.slots[i].owner == b.slots[j].owner {
          return false;
        }
      }
    }
    return true;
  }

  /** Every packet that is queued fits the length field. */
  lemma PayloadFits(server: Server, p: Addr)
    requires server.Valid() && p in server.states
    ensures HEADER <= Length(server.states[p].payload) <= MAX_LEN
  {
    hide Server.Inv, SentLogged;
    SameKeys(server);
    BodyOk(server, p);
    EnumeratedIsOwing(server, p, 0);
    var o := OwnerOf(server.bodies[p], 0);
    var i :| 0 <= i < |server.chains[o]| && server.chains[o][i].packet == p;
    assert Carries(o, |server.chains[o]|, i, server.states[p], server.history);
  }

  lemma SameKeys(server: Server)
    requires server.Inv()
    ensures server.states.Keys == server.bodies.Keys
  {
  }

  /** Follows the chain of session `i` from its head up to packet `p`. */
  method FindInChain(server: Server, i: nat, p: Addr, ghost k: nat) returns (found: bool)
    requires server.Inv() && i < |server.sessions| && server.sessions[i].id in server.chains && p != NULL
    requires Loc(p, k) in server.chains[server.sessions[i].id]
    ensures found
  {
    hide Server.Inv, Linked, Consecutive;
    Walk(server, i);
    ghost var c := server.chains[server.sessions[i].id];
    ghost var at :| 0 <= at < |c| && c[at] == Loc(p, k);
    ghost var x := 0;
    var l := server.sessions[i].head;
    while l.packet != p
      invariant x <= at && l == c[x]
      decreases at - x
    {
      WalkOn(server.bodies, c, x);
      if l.packet == NULL {
        return false;
      }
      l := server.bodies[l.packet].slots[l.slot].next;
      x := x + 1;
    }
    return true;
  }

  /** What is left of a packet's delay; less than nothing if it is overdue. */
  function TimeLeft(s: State, delay: nat, now: Timespec): int {
    delay - Elapsed(now, s.stamp)
  }

  /** The packet at position `i` was not stamped in the future, and is not due before the one in front of
      it, nor was the first one due a second ago. */
  ghost predicate StampOk(q: seq<Addr>, i: nat, states: map<Addr, State>, delay: nat, now: Timespec)
    requires i < |q|
  {
    && q[i] in states && IsTime(states[q[i]].stamp) && TimeLeft(states[q[i]], delay, now) <= delay
    && (if i == 0 then -1000 else if q[i - 1] in states then TimeLeft(states[q[i - 1]], delay, now) else 0)
         <= TimeLeft(states[q[i]], delay, now)
  }

  ghost predicate StampsOk(q: seq<Addr>, states: map<Addr, State>, delay: nat, now: Timespec) {
    q == [] || (IsTime(now) && forall i :: 0 <= i < |q| ==> StampOk(q, i, states, delay, now))
  }

  /** The queue must be linked in both directions and end at its tail, and be in the order in which its
      packets are due. The latter is the only part that can fail. */
  method CheckPackets(server: Server, now: Timespec) returns (ok: bool)
    requires server.Valid()
    ensures ok <==> StampsOk(server.queue, server.states, server.retransmitDelay, now)
  {
    hide PacketsOk, TableOk, SessionsOk, ChainKeysOk, Recorded, Elapsed;
    NothingDangles(server);
    SameKeys(server);
    if server.head == NULL {
      return true;
    }
    if !IsTime(now) {
      return false;
    }
    var p, previous, left := server.head, NULL, -1000;
    ghost var i := 0;
    while p != NULL
      invariant i <= |server.queue| && p == if i < |server.queue| then server.queue[i] else NULL
      invariant previous == if i == 0 then NULL else server.queue[i - 1]
      invariant left == if i == 0 then -1000
                        else if previous !in server.states then 0
                        else TimeLeft(server.states[previous], server.retransmitDelay, now)
      invariant forall j :: 0 <= j < i ==> StampOk(server.queue, j, server.states, server.retransmitDelay, now)
      decreases |server.queue| - i
    {
      assert p in server.next && p in server.prev && server.queue[i] in server.bodies;
      ok := CheckPacket(server, p);
      var timeLeft := TimeLeft(server.states[p], server.retransmitDelay, now);
      if !IsTime(server.states[p].stamp) || timeLeft > server.retransmitDelay || timeLeft < left {
        assert !StampOk(server.queue, i, server.states, server.retransmitDelay, now);
        return false;
      }
      left := timeLeft;
      if !ok || server.prev[p] != previous {
        return false;
      }
      previous := p;
      p := server.next[p];
      i := i + 1;
    }
    return server.tail == previous;
  }

  /** Remote ids along a chain of a connected session must go up one by one. They do so modulo 0x8000,
      but the check does not wrap around: it fails for a chain that reaches past 0x7fff. */
  method CheckConnected(server: Server, i: nat) returns (ok: bool)
    requires server.Valid() && i < server.connected && i < |server.sessions|
    ensures server.sessions[i].id in server.chains
    ensures ok <==> |server.chains[server.sessions[i].id]| <= server.sessions[i].remoteId + 1
  {
    hide Server.Inv, Server.Logged, Linked;
    Walk(server, i);
    IdsOf(server, i);
    var s := server.sessions[i];
    if s.id < SERVER_ID || server.LookupGet(s.id) != i || s.wireId != s.id {
      return false;
    }
    ghost var c := server.chains[s.id];
    if c != [] { WalkOn(server.bodies, c, 0); }
    if s.head.packet == NULL {
      return true;
    }
    var l, last := s.head, s.head;
    var expected := server.bodies[l.packet].slots[l.slot].remoteId;
    ghost var first, x := expected, 0;
    while l.packet != NULL
      invariant x <= |c| && if x == |c| then l.packet == NULL else l == c[x]
      invariant x > 0 ==> last == c[x - 1]
      invariant expected == first + x && first == (s.remoteId + 1 - |c|) % REMOTE_IDS && first + x <= REMOTE_IDS
      decreases |c| - x
    {
      WalkOn(server.bodies, c, x);
      LinkChecked(server, i, x);
      var slot := server.bodies[l.packet].slots[l.slot];
      var queued := FindQueued(server, l.packet);
      if IsSyn(server.states[l.packet].payload) || server.states[l.packet].closing
        || server.bodies[l.packet].remaining == 0 || slot.owner != s.id || !queued {
        return false;
      }
      IdsWrap(s.remoteId, |c|, x);
      if slot.remoteId >= 0x8000 || expected != slot.remoteId {
        return false;
      }
      expected := slot.remoteId + 1;
      last := l;
      l := slot.next;
      x := x + 1;
    }
    if x < |c| { WalkOn(server.bodies, c, x); }
    IdsWrap(s.remoteId, |c|, |c| - 1);
    return s.tail == last && s.remoteId == expected - 1;
  }

  /** The id at position `x` of a chain of `n` ids ending at `last`, counted from the first one. */
  lemma IdsWrap(last: nat, n: nat, x: nat)
    requires x < n && last < REMOTE_IDS
    ensures var first := (last + 1 - n) % REMOTE_IDS;
      && (first + x < REMOTE_IDS ==> (last + x + 1 - n) % REMOTE_IDS == first + x)
      && (first + x == REMOTE_IDS ==> (last + x + 1 - n) % REMOTE_IDS == 0 && n > last + 1)
      && (first + n - 1 < REMOTE_IDS ==> last == first + n - 1 && n <= last + 1)
  {
  }

  lemma LinkChecked(server: Server, i: nat, x: nat)
    requires server.Valid() && i < server.connected && i < |server.sessions| && server.sessions[i].id in server.chains
    requires x < |server.chains[server.sessions[i].id]|
    ensures var l := server.chains[server.sessions[i].id][x];
      && l.packet in server.bodies && l.packet in server.states && !server.states[l.packet].closing
      && l.slot < |server.bodies[l.packet].slots|
      && server.bodies[l.packet].remaining > 0 && server.bodies[l.packet].slots[l.slot].owner == server.sessions[i].id
      && !IsSyn(server.states[l.packet].payload)
  {
    hide QueueOk, TableOk, ChainKeysOk, OrderOk, BirthsOk, ChainsOk, Linked, Consecutive, SentLogged;
    var o := server.sessions[i].id;
    server.RecordOk(i, {});
    LinkOwed(server.bodies, server.chains, o, x);
    assert Carries(o, |server.chains[o]|, x, server.states[server.chains[o][x].packet], server.history);
  }

  lemma IdsOf(server: Server, i: nat)
    requires server.Inv() && i < |server.sessions|
    ensures server.lookup.Length == ID_COUNT && SERVER_ID <= server.sessions[i].id < ID_COUNT
    ensures server.sessions[i].wireId < ID_COUNT
    ensures server.lookup[server.sessions[i].id] == i + 1 == server.lookup[server.sessions[i].wireId]
    ensures i < server.connected ==> server.sessions[i].wireId == server.sessions[i].id
  {
    hide PacketsOk, QueueOk, SessionsOk, ChainKeysOk;
    RecordIds(server.sessions, server.connected, server.lookup[..], i);
  }

  /** A session that is not connected must be in exactly one of the two handshakes. */
  method CheckUnconnected(server: Server, i: nat) returns (ok: bool)
    requires server.Valid() && server.connected <= i < |server.sessions|
    ensures ok
  {
    hide Server.Inv, Server.Logged;
    server.OnlyPacket(i);
    LinkEnds(server, i);
    IdsOf(server, i);
    var s := server.sessions[i];
    if s.id < SERVER_ID || server.LookupGet(s.id) != i || server.LookupGet(s.wireId) != i {
      return false;
    }
    var p := s.head.packet;
    if p == NULL || p != s.tail.packet || server.bodies[p].remaining == 0 {
      return false;
    }
    var slot := server.bodies[p].slots[s.head.slot];
    if slot.owner != s.id || slot.next.packet != NULL || Length(server.states[p].payload) != SYN_LEN {
      return false;
    }
    if server.states[p].closing {
      return s.wireId == s.id && s.wireId >= SERVER_ID;
    }
    return s.wireId != s.id && s.wireId < SERVER_ID;
  }

  lemma LinkEnds(server: Server, i: nat)
    requires server.Valid() && server.connected <= i < |server.sessions|
    requires server.sessions[i].head.packet in server.bodies
    ensures var s := server.sessions[i]; var b := server.bodies[s.head.packet];
      && s.head.slot < |b.slots| && b.remaining > 0 && b.slots[s.head.slot].owner == s.id
      && b.slots[s.head.slot].next.packet == NULL
      && s.id >= SERVER_ID && (s.wireId != s.id ==> s.wireId < SERVER_ID)
      && s.head.packet in server.states && Length(server.states[s.head.packet].payload) == SYN_LEN
  {
    hide QueueOk, ChainKeysOk, OrderOk, BirthsOk, ChainsOk, SentLogged;
    var s := server.sessions[i];
    server.OnlyPacket(i);
    LinkOwed(server.bodies, server.chains, s.id, 0);
    assert Carries(s.id, 1, 0, server.states[server.chains[s.id][0].packet], server.history);
  }

  /** The lookup table must lead to every session and to nothing else. */
  method CheckTable(server: Server) returns (ok: bool)
    requires server.Inv()
    ensures ok
  {
    hide Server.Inv;
    server.LengthOfTable();
    for id := 0 to ID_COUNT
    {
      Lookup(server, id);
      var i := server.lookup[id] - 1;
      if i != -1 {
        if i < 0 || i >= |server.sessions| || server.lookup[server.sessions[i].id] - 1 != i {
          return false;
        }
        if id >= SERVER_ID && server.sessions[i].id != id {
          return false;
        }
        if id < SERVER_ID && (i < server.connected || server.sessions[i].wireId != id) {
          return false;
        }
      }
    }
    return server.connected <= |server.sessions| && |server.sessions| <= server.sessionsLimit;
  }

  lemma Lookup(server: Server, id: nat)
    requires server.Inv() && id < ID_COUNT
    ensures server.lookup.Length == ID_COUNT && server.connected <= |server.sessions| <= server.sessionsLimit
    ensures server.lookup[id] != 0 ==>
      && 1 <= server.lookup[id] <= |server.sessions|
      && var i := server.lookup[id] - 1; var s := server.sessions[i];
      && s.id < ID_COUNT && server.lookup[s.id] == i + 1
      && if id >= SERVER_ID then s.id == id else s.wireId == id && i >= server.connected
  {
    hide PacketsOk, QueueOk, SessionsOk, ChainKeysOk;
    assert Registered(server.lookup[..], id) <==> server.lookup[id] != 0;
    if Registered(server.lookup[..], id) {
      RecordIds(server.sessions, server.connected, server.lookup[..], server.lookup[id] - 1);
    }
  }
}
