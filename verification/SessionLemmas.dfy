/** How session records follow the packets they lose. */
module SessionLemmas {
  import opened IndexSet
  import opened ProxyState
  import opened ChainLemmas
  import opened JoinLemmas
  import opened QueueLemmas
  import TableLemmas

  /** Everyone but the session whose chain was shortened is unaffected. */
  lemma OthersFramed(states: map<Addr, State>, bodies: map<Addr, Body>, chains: map<nat, seq<Loc>>, dropped: set<nat>,
                     states': map<Addr, State>, bodies': map<Addr, Body>, chains': map<nat, seq<Loc>>,
                     sessions: seq<Session>, connected: nat, i: nat)
    requires OthersOk(states, bodies, chains, dropped, sessions, connected, i) && DistinctIds(sessions)
    requires i < |sessions|
    requires Framed(states, bodies, states', bodies')
    requires RefsOk(bodies', chains', NULL, {}) && NULL !in bodies' && bodies'.Keys == states'.Keys
    requires forall o :: o in chains && o != sessions[i].id ==> o in chains' && chains'[o] == chains[o]
    ensures OthersOk(states', bodies', chains', dropped, sessions, connected, i)
  {
    hide RefsOk, SessionOk;
    forall j | 0 <= j < |sessions| && j != i
      ensures SessionOk(states', bodies', chains', dropped, sessions[j], j < connected)
    {
      assert SessionOk(states, bodies, chains, dropped, sessions[j], j < connected);
      SessionFramed(states, bodies, chains, dropped, states', bodies', chains', sessions[j], j < connected);
    }
  }

  lemma SessionFramed(states: map<Addr, State>, bodies: map<Addr, Body>, chains: map<nat, seq<Loc>>, dropped: set<nat>,
                      states': map<Addr, State>, bodies': map<Addr, Body>, chains': map<nat, seq<Loc>>,
                      s: Session, connected: bool)
    requires SessionOk(states, bodies, chains, dropped, s, connected)
    requires Framed(states, bodies, states', bodies')
    requires RefsOk(bodies', chains', NULL, {}) && NULL !in bodies' && bodies'.Keys == states'.Keys
    requires s.id in chains ==> s.id in chains' && chains'[s.id] == chains[s.id]
    ensures SessionOk(states', bodies', chains', dropped, s, connected)
  {
    hide RefsOk;
    forall i | 0 <= i < |chains[s.id]|
      ensures SameLink(states, bodies, states', bodies', chains[s.id][i])
    {
      LinkOwed(bodies', chains', s.id, i);
      assert SameSlots(bodies[chains[s.id][i].packet], bodies'[chains[s.id][i].packet]);
    }
  }

  /** The links behind the first one are where they were. */
  ghost predicate SameRest(states: map<Addr, State>, bodies: map<Addr, Body>, states': map<Addr, State>,
                           bodies': map<Addr, Body>, c: seq<Loc>) {
    forall i :: 1 <= i < |c| ==> SameLink(states, bodies, states', bodies', c[i])
  }

  lemma RestLinked(states: map<Addr, State>, bodies: map<Addr, Body>, states': map<Addr, State>,
                   bodies': map<Addr, Body>, c: seq<Loc>)
    requires Linked(bodies, c) && c != [] && SameRest(states, bodies, states', bodies', c)
    ensures Linked(bodies', c[1..])
    ensures c[0].packet in bodies && c[0].slot < |bodies[c[0].packet].slots|
    ensures var next := SlotAt(bodies, c[0]).next; if |c| > 1 then next == c[1] else next.packet == NULL
  {
  }

  lemma RestConsecutive(states: map<Addr, State>, bodies: map<Addr, Body>, states': map<Addr, State>,
                        bodies': map<Addr, Body>, c: seq<Loc>, last: nat)
    requires Consecutive(bodies, c, last) && c != [] && SameRest(states, bodies, states', bodies', c)
    ensures Consecutive(bodies', c[1..], last)
  {
  }

  /** A connected session whose oldest packet was acknowledged is described by the rest of its chain. */
  lemma AcknowledgedOk(states: map<Addr, State>, bodies: map<Addr, Body>, chains: map<nat, seq<Loc>>,
                       states': map<Addr, State>, bodies': map<Addr, Body>, s: Session)
    requires SessionOk(states, bodies, chains, {}, s, true) && chains[s.id] != []
    requires Framed(states, bodies, states', bodies')
    requires bodies'.Keys == states'.Keys
    requires forall i :: 1 <= i < |chains[s.id]| ==> chains[s.id][i].packet in bodies'
    ensures s.head.packet in bodies && s.head.slot < |bodies[s.head.packet].slots|
    ensures var chains' := chains[s.id := chains[s.id][1..]];
      SessionOk(states', bodies', chains', {}, s.(head := SlotAt(bodies, s.head).next), true)
  {
    hide Linked, Consecutive;
    var c := chains[s.id];
    LinksFramed(states, bodies, states', bodies', c);
    RestLinked(states, bodies, states', bodies', c);
    RestConsecutive(states, bodies, states', bodies', c, s.remoteId);
    var rest := c[1..];
    assert forall i :: 0 <= i < |rest| ==> rest[i] == c[i + 1] && SameLink(states, bodies, states', bodies', rest[i]);
  }

  lemma LinksFramed(states: map<Addr, State>, bodies: map<Addr, Body>, states': map<Addr, State>,
                    bodies': map<Addr, Body>, c: seq<Loc>)
    requires Linked(bodies, c) && Framed(states, bodies, states', bodies') && bodies'.Keys == states'.Keys
    requires forall i :: 1 <= i < |c| ==> c[i].packet in bodies'
    ensures SameRest(states, bodies, states', bodies', c)
  {
  }

  lemma SessionsAcknowledged(states: map<Addr, State>, bodies: map<Addr, Body>, chains: map<nat, seq<Loc>>,
                             states': map<Addr, State>, bodies': map<Addr, Body>,
                             sessions: seq<Session>, connected: nat, i: nat)
    requires SessionsOk(states, bodies, chains, {}, sessions, connected) && DistinctIds(sessions)
    requires i < connected <= |sessions|
    requires Framed(states, bodies, states', bodies')
    requires sessions[i].id in chains && chains[sessions[i].id] != []
    requires RefsOk(bodies', chains[sessions[i].id := chains[sessions[i].id][1..]], NULL, {})
    requires NULL !in bodies' && bodies'.Keys == states'.Keys
    ensures var s := sessions[i];
      && s.head.packet in bodies && s.head.slot < |bodies[s.head.packet].slots|
      && SessionsOk(states', bodies', chains[s.id := chains[s.id][1..]], {},
                    sessions[i := s.(head := SlotAt(bodies, s.head).next)], connected)
  {
    hide SessionOk, RefsOk, Framed;
    var s := sessions[i];
    var chains': map<nat, seq<Loc>> := chains[s.id := chains[s.id][1..]];
    assert SessionOk(states, bodies, chains, {}, s, true);
    OthersFramed(states, bodies, chains, {}, states', bodies', chains', sessions, connected, i);
    forall j | 1 <= j < |chains[s.id]|
      ensures chains[s.id][j].packet in bodies'
    {
      assert chains'[s.id][j - 1] == chains[s.id][j];
      LinkOwed(bodies', chains', s.id, j - 1);
    }
    AcknowledgedOk(states, bodies, chains, states', bodies', s);
  }

  /** Rewriting the link out of a slot concerns nobody but the session that owns the slot. */
  lemma OthersRelinked(states: map<Addr, State>, bodies: map<Addr, Body>, chains: map<nat, seq<Loc>>, dropped: set<nat>,
                       sessions: seq<Session>, connected: nat, i: nat, focus: Addr, live: set<nat>, l: Loc, slot: Slot)
    requires OthersOk(states, bodies, chains, dropped, sessions, connected, i) && DistinctIds(sessions)
    requires i < |sessions|
    requires RefsOk(bodies, chains, focus, live) && bodies.Keys == states.Keys
    requires l.packet in bodies && l.slot < |bodies[l.packet].slots|
    requires SlotAt(bodies, l).owner == sessions[i].id == slot.owner
    ensures OthersOk(states, WithSlot(bodies, l, slot), chains, dropped, sessions, connected, i)
  {
    hide RefsOk, SessionOk;
    forall j | 0 <= j < |sessions| && j != i
      ensures SessionOk(states, WithSlot(bodies, l, slot), chains, dropped, sessions[j], j < connected)
    {
      OtherRelinked(states, bodies, chains, dropped, sessions[j], j < connected, focus, live, l, slot);
    }
  }

  lemma OtherRelinked(states: map<Addr, State>, bodies: map<Addr, Body>, chains: map<nat, seq<Loc>>, dropped: set<nat>,
                      s: Session, connected: bool, focus: Addr, live: set<nat>, l: Loc, slot: Slot)
    requires SessionOk(states, bodies, chains, dropped, s, connected)
    requires RefsOk(bodies, chains, focus, live) && bodies.Keys == states.Keys
    requires l.packet in bodies && l.slot < |bodies[l.packet].slots| && SlotAt(bodies, l).owner == slot.owner != s.id
    ensures SessionOk(states, WithSlot(bodies, l, slot), chains, dropped, s, connected)
  {
    hide RefsOk;
    forall j | 0 <= j < |chains[s.id]|
      ensures SameLink(states, bodies, states, WithSlot(bodies, l, slot), chains[s.id][j])
    {
      LinkOwedFocus(bodies, chains, focus, live, s.id, j);
    }
  }

  lemma OthersIgnore(states: map<Addr, State>, bodies: map<Addr, Body>, chains: map<nat, seq<Loc>>,
                     states': map<Addr, State>, bodies': map<Addr, Body>,
                     sessions: seq<Session>, connected: nat, i: nat, p: Addr)
    requires OthersOk(states, bodies, chains, {}, sessions, connected, i) && Unchained(chains, p)
    requires forall a :: a in states && a != p ==> a in states' && states'[a] == states[a]
    requires forall a :: a in bodies && a != p ==> a in bodies' && bodies'[a] == bodies[a]
    ensures OthersOk(states', bodies', chains, {}, sessions, connected, i)
  {
    hide SessionOk, Unchained;
    forall j | 0 <= j < |sessions| && j != i
      ensures SessionOk(states', bodies', chains, {}, sessions[j], j < connected)
    {
      SessionIgnores(states, bodies, chains, states', bodies', sessions[j], j < connected, p);
    }
  }

  /** Lengthening one session's chain concerns nobody else. */
  lemma OthersUnchained(states: map<Addr, State>, bodies: map<Addr, Body>, chains: map<nat, seq<Loc>>,
                        dropped: set<nat>, chains': map<nat, seq<Loc>>, sessions: seq<Session>, connected: nat, i: nat)
    requires OthersOk(states, bodies, chains, dropped, sessions, connected, i) && DistinctIds(sessions)
    requires i < |sessions|
    requires forall o :: o in chains && o != sessions[i].id ==> o in chains' && chains'[o] == chains[o]
    ensures OthersOk(states, bodies, chains', dropped, sessions, connected, i)
  {
  }

  // ---------------------------------------------------------------- the cached state

  /** The packets of a freshly dumped chain: one slot each, remote ids counting from one. */
  ghost predicate Dumped(states: map<Addr, State>, bodies: map<Addr, Body>, c: seq<Loc>, cache: seq<Payload>) {
    && |c| <= |cache|
    && forall j {:trigger c[j]} :: 0 <= j < |c| ==>
         && c[j].slot == 0 && c[j].packet != NULL
         && c[j].packet in states && !states[c[j].packet].closing && states[c[j].packet].payload == cache[j]
         && c[j].packet in bodies && |bodies[c[j].packet].slots| == 1
         && bodies[c[j].packet].slots[0].remoteId == j + 1
  }

  /** A packet with a single slot, still set apart, joins the end of a chain. */
  lemma ChunkJoined(states: map<Addr, State>, bodies: map<Addr, Body>, bodies': map<Addr, Body>, q: seq<Addr>,
                    chains: map<nat, seq<Loc>>, births: map<Addr, nat>, clock: nat, p: Addr, o: nat)
    requires PacketsOk(states, bodies, q, chains, births, clock, p, {})
    requires bodies'.Keys == bodies.Keys && forall a :: a in bodies ==> SameIndex(bodies[a], bodies'[a])
    requires p in states && p in bodies && p in q && Youngest(states, births, p) && o in chains
    requires bodies[p].remaining == 1 == |bodies[p].slots| && bodies[p].slots[0].owner == o
    requires bodies[p].slots[0].index == 0
    ensures PacketsOk(states, bodies', q, chains[o := chains[o] + [Loc(p, 0)]], births, clock, NULL, {})
  {
    hide RefsOk, OrderOk, BirthsOk;
    RefsRelinked(bodies, bodies', chains, p, {});
    RefsPushed(bodies', chains, p, {}, o, 0);
    assert IndexAt(bodies'[p], 0) == 0;
    assert {} + {0} == {0};
    RefsSettled(bodies', chains[o := chains[o] + [Loc(p, 0)]], p, {0});
    ChainsAppended(states, bodies, q, chains, births, clock, p, o);
  }

  lemma ChainsAppended(states: map<Addr, State>, bodies: map<Addr, Body>, q: seq<Addr>,
                       chains: map<nat, seq<Loc>>, births: map<Addr, nat>, clock: nat, p: Addr, o: nat)
    requires PacketsOk(states, bodies, q, chains, births, clock, p, {}) && Youngest(states, births, p) && o in chains
    ensures ChainsOk(chains[o := chains[o] + [Loc(p, 0)]], births)
  {
  }

  /** The dumped chain, once its end is marked, describes the session. */
  lemma DumpedSessionOk(states: map<Addr, State>, bodies: map<Addr, Body>, chains: map<nat, seq<Loc>>, s: Session,
                        cache: seq<Payload>)
    requires s.id in chains && chains[s.id] != [] && |cache| < 0x100
    requires Dumped(states, bodies, chains[s.id], cache) && |chains[s.id]| == |cache|
    requires Linked(bodies, chains[s.id])
    requires s.head == chains[s.id][0] && s.tail == chains[s.id][|cache| - 1] && s.remoteId == |cache|
    requires s.wireId == s.id
    ensures SessionOk(states, bodies, chains, {}, s, true)
  {
  }

  ghost function Addresses(c: seq<Loc>): seq<Addr> {
    seq(|c|, j requires 0 <= j < |c| => c[j].packet)
  }

  /** Another packet `p` was linked behind a dumped chain. */
  lemma DumpedMore(states: map<Addr, State>, bodies: map<Addr, Body>, states': map<Addr, State>,
                   bodies': map<Addr, Body>, c: seq<Loc>, p: Addr, cache: seq<Payload>)
    requires Dumped(states, bodies, c, cache) && Strung(bodies, c) && c != [] && |c| < |cache|
    requires p != NULL && p !in bodies && p in states' && !states'[p].closing && states'[p].payload == cache[|c|]
    requires forall a :: a in states ==> a in states' && states'[a] == states[a]
    requires p in bodies' && |bodies'[p].slots| == 1 && bodies'[p].slots[0].remoteId == |c| + 1
    requires forall a :: a in bodies && a != c[|c| - 1].packet ==> a in bodies' && bodies'[a] == bodies[a]
    requires var l := c[|c| - 1];
      && l.packet in bodies && l.packet in bodies' && 0 < |bodies[l.packet].slots|
      && bodies'[l.packet].slots == bodies[l.packet].slots[0 := bodies[l.packet].slots[0].(next := Loc(p, 0))]
    requires forall j :: 0 <= j < |c| - 1 ==> c[j].packet != c[|c| - 1].packet
    ensures Dumped(states', bodies', c + [Loc(p, 0)], cache)
    ensures Strung(bodies', c + [Loc(p, 0)])
  {
    var c' := c + [Loc(p, 0)];
    forall j | 0 <= j < |c'|
      ensures c'[j].packet in bodies' && c'[j].slot == 0 && |bodies'[c'[j].packet].slots| == 1
      ensures bodies'[c'[j].packet].slots[0].remoteId == j + 1
      ensures j < |c| ==> bodies'[c'[j].packet].slots[0].next == c'[j + 1]
      ensures c'[j].packet in states' && !states'[c'[j].packet].closing && states'[c'[j].packet].payload == cache[j]
    {
      if j < |c| {
        assert c'[j] == c[j] && c[j].packet in bodies;
        if j < |c| - 1 { assert c[j].packet in bodies && c'[j + 1] == c[j + 1]; }
      }
    }
  }

  lemma ChunkDatagramsMore(s: Session, cache: seq<Payload>, n: nat)
    requires n < |cache|
    ensures ChunkDatagrams(s, cache, n + 1) == ChunkDatagrams(s, cache, n) + [Data(s.peer, s.wireId, n + 1, cache[n])]
  {
  }

  lemma AddressesMore(c: seq<Loc>, l: Loc)
    ensures Addresses(c + [l]) == Addresses(c) + [l.packet]
  {
  }

  lemma RelinkedSameIndex(bodies: map<Addr, Body>, l: Loc, slot: Slot)
    requires l.packet in bodies && l.slot < |bodies[l.packet].slots|
    requires slot.owner == SlotAt(bodies, l).owner && slot.index == SlotAt(bodies, l).index
    ensures forall a :: a in bodies ==> SameIndex(bodies[a], WithSlot(bodies, l, slot)[a])
  {
  }

  /** Marking the end of a dumped chain. */
  lemma DumpClosed(states: map<Addr, State>, bodies: map<Addr, Body>, bodies': map<Addr, Body>, c: seq<Loc>,
                   cache: seq<Payload>)
    requires Dumped(states, bodies, c, cache) && Strung(bodies, c) && c != []
    requires forall j :: 0 <= j < |c| - 1 ==> c[j].packet != c[|c| - 1].packet
    requires c[|c| - 1].packet in bodies && c[|c| - 1].slot < |bodies[c[|c| - 1].packet].slots|
    requires bodies' == WithSlot(bodies, c[|c| - 1],
      SlotAt(bodies, c[|c| - 1]).(next := Loc(NULL, SlotAt(bodies, c[|c| - 1]).next.slot)))
    ensures Dumped(states, bodies', c, cache) && Linked(bodies', c)
  {
  }

  // ---------------------------------------------------------------- moving records

  /** Moving a record to the end of the connected prefix leaves every other record in its part of the array. */
  lemma OthersConnected(states: map<Addr, State>, bodies: map<Addr, Body>, chains: map<nat, seq<Loc>>,
                        sessions: seq<Session>, connected: nat, i: nat, moved: Session)
    requires SessionsOk(states, bodies, chains, {}, sessions, connected) && connected <= i < |sessions|
    ensures OthersOk(states, bodies, chains, {}, TableLemmas.Swapped(sessions, i, connected)[connected := moved],
                     connected + 1, connected)
  {
  }

  lemma ChainKeysPermuted(sessions: seq<Session>, sessions': seq<Session>, chains: map<nat, seq<Loc>>, i: nat, j: nat)
    requires ChainKeysOk(sessions, chains) && i < |sessions| && j < |sessions| && |sessions'| == |sessions|
    requires forall k :: 0 <= k < |sessions| ==> sessions'[k].id == TableLemmas.Swapped(sessions, i, j)[k].id
    ensures ChainKeysOk(sessions', chains)
  {
    forall o | o in chains
      ensures exists k :: 0 <= k < |sessions'| && sessions'[k].id == o
    {
      var k :| 0 <= k < |sessions| && sessions[k].id == o;
      var k' := if k == i then j else if k == j then i else k;
      assert sessions'[k'].id == o;
    }
  }

  /** The states of the packets once new ones at the given addresses carry the chunks. */
  ghost function WithChunks(states: map<Addr, State>, q: seq<Addr>, cache: seq<Payload>, now: Timespec):
    map<Addr, State>
    requires |q| <= |cache|
  {
    if q == [] then states
    else
      var n := |q| - 1;
      WithChunks(states, q[..n], cache, now)[q[n] := State(RESENDS, false, now, cache[n])]
  }

  lemma WithChunksMore(states: map<Addr, State>, q: seq<Addr>, p: Addr, cache: seq<Payload>, now: Timespec)
    requires |q| < |cache|
    ensures WithChunks(states, q + [p], cache, now) ==
      WithChunks(states, q, cache, now)[p := State(RESENDS, false, now, cache[|q|])]
  {
    assert (q + [p])[..|q|] == q;
  }

  /** Every old packet, but for one that is gone, is what it was. */
  ghost predicate OthersKept(bodies0: map<Addr, Body>, gone: Addr, bodies: map<Addr, Body>) {
    forall a :: a in bodies0 && a != gone ==> a in bodies && bodies[a] == bodies0[a]
  }

  /** Completing the handshake of session `i` made it session `c`, released its handshake packet and
      dumped the cached state to it; nothing else changed. */
  ghost predicate Completed(i: nat, c: nat, cache: seq<Payload>, now: Timespec,
                            states0: map<Addr, State>, bodies0: map<Addr, Body>, q0: seq<Addr>,
                            chains0: map<nat, seq<Loc>>, sessions0: seq<Session>,
                            states: map<Addr, State>, bodies: map<Addr, Body>, q: seq<Addr>, chains: map<nat, seq<Loc>>,
                            sessions: seq<Session>) {
    && c <= i < |sessions0| && c < |sessions|
    && var s := sessions0[i];
    && sessions[c] == s.(wireId := s.id, remoteId := |cache|, head := sessions[c].head, tail := sessions[c].tail)
    && sessions == TableLemmas.Swapped(sessions0, i, c)[c := sessions[c]]
    && s.id in chains && chains == chains0[s.id := chains[s.id]]
    && |chains[s.id]| == |cache| && Dumped(states, bodies, chains[s.id], cache)
    && q == Kept(q0, states0.Keys - {s.head.packet}) + Addresses(chains[s.id])
    && states == WithChunks(states0 - {s.head.packet}, Addresses(chains[s.id]), cache, now)
    && OthersKept(bodies0, s.head.packet, bodies)
  }

  /** The packet of an opening handshake belongs to nobody else: losing it empties one chain. */
  lemma HandshakeOver(states: map<Addr, State>, bodies: map<Addr, Body>, q: seq<Addr>, chains: map<nat, seq<Loc>>,
                      births: map<Addr, nat>, clock: nat, o: nat)
    requires PacketsOk(states, bodies, q, chains, births, clock, NULL, {}) && Distinct(q)
    requires o in chains && |chains[o]| == 1
    requires chains[o][0].packet in bodies && |bodies[chains[o][0].packet].slots| == 1
    ensures var p := chains[o][0].packet;
      && p in q
      && PacketsOk(states - {p}, bodies - {p}, Kept(q, states.Keys - {p}), chains[o := []], births, clock, NULL, {})
      && Framed(states, bodies, states - {p}, bodies - {p})
      && (forall j :: 0 <= j < |q| && q[j] == p ==> Cut(q, j) == Kept(q, states.Keys - {p}))
  {
    hide RefsOk, OrderOk, BirthsOk, ChainsOk, KeysOk, Framed, Distinct, IndexOk, Owes, Disassociated;
    var p := chains[o][0].packet;
    OnlySlot(states, bodies, q, chains, births, clock, o);
    forall j | 0 <= j < |q| && q[j] == p
      ensures PacketsOk(states - {p}, bodies - {p}, Kept(q, states.Keys - {p}), chains[o := []], births, clock, NULL,
                        {})
      ensures Cut(q, j) == Kept(q, states.Keys - {p})
    {
      PacketsDisassociated(states, bodies, q, chains, births, clock, o, 0, j);
      assert (states - {p}).Keys == states.Keys - {p};
    }
    FramedWithout(states, bodies, p);
  }

  /** A packet for a single session that is still owed. */
  lemma OnlySlot(states: map<Addr, State>, bodies: map<Addr, Body>, q: seq<Addr>, chains: map<nat, seq<Loc>>,
                 births: map<Addr, nat>, clock: nat, o: nat)
    requires PacketsOk(states, bodies, q, chains, births, clock, NULL, {})
    requires o in chains && |chains[o]| == 1
    requires chains[o][0].packet in bodies && |bodies[chains[o][0].packet].slots| == 1
    ensures var p := chains[o][0].packet; p in q && p in states && bodies[p].remaining == 1
    ensures Without(chains[o], 0) == []
    ensures var l := chains[o][0];
      IndexOk(bodies[l.packet]) && Owes(bodies[l.packet], l.slot)
        && Disassociated(bodies, l.packet, l.slot) == bodies - {l.packet}
  {
  }

  lemma FramedWithout(states: map<Addr, State>, bodies: map<Addr, Body>, p: Addr)
    ensures Framed(states, bodies, states - {p}, bodies - {p})
  {
  }

  // ---------------------------------------------------------------- new sessions

  /** A chain for an id that no session has yet. */
  lemma PacketsNewChain(states: map<Addr, State>, bodies: map<Addr, Body>, q: seq<Addr>, chains: map<nat, seq<Loc>>,
                        births: map<Addr, nat>, clock: nat, o: nat)
    requires PacketsOk(states, bodies, q, chains, births, clock, NULL, {}) && o !in chains
    ensures PacketsOk(states, bodies, q, chains[o := []], births, clock, NULL, {})
  {
  }

  /** A record was appended; the ones before it are still correct. */
  lemma OthersAppended(states: map<Addr, State>, bodies: map<Addr, Body>, chains: map<nat, seq<Loc>>,
                       sessions: seq<Session>, connected: nat, s: Session)
    requires SessionsOk(states, bodies, chains, {}, sessions, connected) && connected <= |sessions|
    requires s.id !in chains
    ensures OthersOk(states, bodies, chains[s.id := []], {}, sessions + [s], connected, |sessions|)
  {
  }

  lemma ChainKeysAppended(sessions: seq<Session>, chains: map<nat, seq<Loc>>, s: Session, c: seq<Loc>)
    requires ChainKeysOk(sessions, chains)
    ensures ChainKeysOk(sessions + [s], chains[s.id := c])
  {
    var chains': map<nat, seq<Loc>> := chains[s.id := c];
    forall o | o in chains'
      ensures exists i :: 0 <= i < |sessions + [s]| && (sessions + [s])[i].id == o
    {
      if o == s.id {
        assert (sessions + [s])[|sessions|].id == o;
      } else {
        var i :| 0 <= i < |sessions| && sessions[i].id == o;
        assert (sessions + [s])[i].id == o;
      }
    }
  }

  // ---------------------------------------------------------------- leaving sessions

  lemma PacketsForgotten(states: map<Addr, State>, bodies: map<Addr, Body>, q: seq<Addr>, chains: map<nat, seq<Loc>>,
                         births: map<Addr, nat>, clock: nat, focus: Addr, live: set<nat>, o: nat)
    requires PacketsOk(states, bodies, q, chains, births, clock, focus, live) && o in chains && chains[o] == []
    ensures PacketsOk(states, bodies, q, chains - {o}, births, clock, focus, live)
  {
  }

  /** Everyone else, once record `i` outside the connected prefix has been overwritten by the last one. */
  lemma OthersVacated(states: map<Addr, State>, bodies: map<Addr, Body>, chains: map<nat, seq<Loc>>, dropped: set<nat>,
                      sessions: seq<Session>, connected: nat, i: nat)
    requires OthersOk(states, bodies, chains, dropped, sessions, connected, i) && connected <= i < |sessions|
    requires DistinctIds(sessions)
    ensures SessionsOk(states, bodies, chains - {sessions[i].id}, dropped, TableLemmas.Vacated(sessions, i), connected)
  {
    var chains': map<nat, seq<Loc>> := chains - {sessions[i].id};
    OthersUnchained(states, bodies, chains, dropped, chains', sessions, connected, i);
    hide SessionOk;
  }

  /** Everyone else, once a connected record `i` has been overwritten by the last connected one, and
      that by the last of all. */
  lemma OthersVacatedTwice(states: map<Addr, State>, bodies: map<Addr, Body>, chains: map<nat, seq<Loc>>,
                           sessions: seq<Session>, connected: nat, i: nat)
    requires OthersOk(states, bodies, chains, {}, sessions, connected, i) && i < connected <= |sessions|
    requires DistinctIds(sessions)
    ensures SessionsOk(states, bodies, chains - {sessions[i].id}, {},
                       TableLemmas.VacatedTwice(sessions, connected, i), connected - 1)
  {
    var chains': map<nat, seq<Loc>> := chains - {sessions[i].id};
    OthersUnchained(states, bodies, chains, {}, chains', sessions, connected, i);
    hide SessionOk;
  }

  /** The records that are left are those of all other sessions. */
  lemma ChainKeysWithout(sessions: seq<Session>, chains: map<nat, seq<Loc>>, i: nat, sessions': seq<Session>)
    requires ChainKeysOk(sessions, chains) && i < |sessions|
    requires forall j :: 0 <= j < |sessions| && j != i ==> sessions[j] in sessions'
    ensures ChainKeysOk(sessions', chains - {sessions[i].id})
  {
  }

  lemma AllButOne(states: map<Addr, State>, bodies: map<Addr, Body>, chains: map<nat, seq<Loc>>, dropped: set<nat>,
                  sessions: seq<Session>, connected: nat, i: nat)
    requires SessionsOk(states, bodies, chains, dropped, sessions, connected)
    ensures OthersOk(states, bodies, chains, dropped, sessions, connected, i)
  {
  }

  lemma VacatedKeepsOthers(sessions: seq<Session>, i: nat)
    requires i < |sessions|
    ensures forall j :: 0 <= j < |sessions| && j != i ==> sessions[j] in TableLemmas.Vacated(sessions, i)
  {
    forall j | 0 <= j < |sessions| && j != i
      ensures sessions[j] in TableLemmas.Vacated(sessions, i)
    {
      var k := if j == |sessions| - 1 then i else j;
      assert TableLemmas.Vacated(sessions, i)[k] == sessions[j];
    }
  }

  lemma VacatedTwiceKeepsOthers(sessions: seq<Session>, connected: nat, i: nat)
    requires i < connected <= |sessions|
    ensures var sessions' := TableLemmas.VacatedTwice(sessions, connected, i);
      && |sessions'| == |sessions| - 1
      && forall j :: 0 <= j < |sessions| && j != i ==> sessions[j] in sessions'
  {
    var sessions' := TableLemmas.VacatedTwice(sessions, connected, i);
    forall j | 0 <= j < |sessions| && j != i
      ensures sessions[j] in sessions'
    {
      var k := if j == connected - 1 then i else if j == |sessions| - 1 then connected - 1 else j;
      assert sessions'[k] == sessions[j];
    }
  }

  /** Of a packet's state, sessions only depend on whether it is a closing request. */
  lemma SessionsRestated(states: map<Addr, State>, states': map<Addr, State>, bodies: map<Addr, Body>,
                         chains: map<nat, seq<Loc>>, sessions: seq<Session>, connected: nat)
    requires SessionsOk(states, bodies, chains, {}, sessions, connected)
    requires forall a :: a in states ==> a in states' && states'[a].closing == states[a].closing
    ensures SessionsOk(states', bodies, chains, {}, sessions, connected)
  {
  }

  // ---------------------------------------------------------------- running out of resends

  lemma PacketsFocused(states: map<Addr, State>, bodies: map<Addr, Body>, q: seq<Addr>, chains: map<nat, seq<Loc>>,
                       births: map<Addr, nat>, clock: nat, p: Addr)
    requires PacketsOk(states, bodies, q, chains, births, clock, NULL, {}) && p in bodies
    ensures IndexOk(bodies[p]) && PacketsOk(states, bodies, q, chains, births, clock, p, OwedFrom(bodies[p], 0))
  {
    hide OrderOk, BirthsOk, ChainsOk;
    assert IndexOk(bodies[p]);
    OwedFromStart(bodies[p]);
    RefsFocused(bodies, chains, p, OwedFrom(bodies[p], 0));
  }

  lemma PacketsTerminated(states: map<Addr, State>, bodies: map<Addr, Body>, q: seq<Addr>, chains: map<nat, seq<Loc>>,
                          births: map<Addr, nat>, clock: nat, p: Addr, live: set<nat>, o: nat, k: nat)
    requires PacketsOk(states, bodies, q, chains, births, clock, p, live)
    requires o in chains && chains[o] == [Loc(p, k)]
    ensures PacketsOk(states, bodies, q, chains - {o}, births, clock, p, live - {k})
  {
    hide OrderOk, BirthsOk, RefsOk;
    RefsTerminated(bodies, chains, p, live, o, k);
  }

  /** A packet at the head of the queue that nobody owes any more may be freed. */
  lemma PacketsFreed(states: map<Addr, State>, bodies: map<Addr, Body>, q: seq<Addr>, chains: map<nat, seq<Loc>>,
                     births: map<Addr, nat>, clock: nat)
    requires q != [] && Distinct(q) && PacketsOk(states, bodies, q, chains, births, clock, q[0], {})
    ensures PacketsOk(states - {q[0]}, bodies - {q[0]}, q[1..], chains, births, clock, NULL, {})
    ensures Unchained(chains, q[0])
  {
    hide OrderOk, BirthsOk, RefsOk, ChainsOk, KeysOk, Distinct;
    NothingOwedUnchained(bodies, chains, q[0]);
    KeysFreed(states, bodies, q);
    RefsFreed(bodies, chains, q[0]);
    OrderCut(states, q, births, 0);
    assert Cut(q, 0) == q[1..];
    BirthsFreed(states, births, clock, q[0]);
  }

  lemma KeysFreed(states: map<Addr, State>, bodies: map<Addr, Body>, q: seq<Addr>)
    requires q != [] && Distinct(q) && KeysOk(states, bodies, q, q[0])
    ensures KeysOk(states - {q[0]}, bodies - {q[0]}, q[1..], NULL) && NULL !in bodies
  {
  }

  lemma BirthsFreed(states: map<Addr, State>, births: map<Addr, nat>, clock: nat, p: Addr)
    requires BirthsOk(states, births, clock)
    ensures BirthsOk(states - {p}, births, clock)
  {
  }

  lemma RefsFreed(bodies: map<Addr, Body>, chains: map<nat, seq<Loc>>, p: Addr)
    requires RefsOk(bodies, chains, p, {}) && NULL !in bodies
    ensures RefsOk(bodies - {p}, chains, NULL, {})
  {
    hide IndexOk, Owes;
    forall a: Addr, k: nat | Owed(bodies - {p}, NULL, {}, a, k)
      ensures (bodies - {p})[a].slots[k].owner in chains && Loc(a, k) in chains[(bodies - {p})[a].slots[k].owner]
    {
      assert Owed(bodies, p, {}, a, k);
    }
    forall o: nat, i: nat | o in chains && i < |chains[o]|
      ensures Owed(bodies - {p}, NULL, {}, chains[o][i].packet, chains[o][i].slot)
      ensures (bodies - {p})[chains[o][i].packet].slots[chains[o][i].slot].owner == o
    {
      assert Owed(bodies, p, {}, chains[o][i].packet, chains[o][i].slot);
    }
  }

  /** A session that owes a closing request is not connected, owes nothing else, and has one id. */
  lemma OwesClosing(states: map<Addr, State>, bodies: map<Addr, Body>, chains: map<nat, seq<Loc>>, s: Session,
                    connected: bool, l: Loc)
    requires SessionOk(states, bodies, chains, {}, s, connected)
    requires s.id in chains && l in chains[s.id] && l.packet in states && states[l.packet].closing
    ensures !connected && chains[s.id] == [l] && s.wireId == s.id
  {
  }

  // ---------------------------------------------------------------- turning into a closing request

  /** Where the record of session `i` is after the session was dropped, and how it reads. */
  function DroppedIndex(connected: nat, i: nat): nat {
    if i < connected then connected - 1 else i
  }

  function DroppedRecords(sessions: seq<Session>, connected: nat, i: nat): (r: seq<Session>)
    requires i < |sessions| && connected <= |sessions|
    ensures |r| == |sessions|
  {
    if i < connected then TableLemmas.Swapped(sessions, i, connected - 1)
    else sessions[i := sessions[i].(wireId := sessions[i].id)]
  }

  lemma OthersDropped(states: map<Addr, State>, bodies: map<Addr, Body>, chains: map<nat, seq<Loc>>, dropped: set<nat>,
                      sessions: seq<Session>, connected: nat, i: nat)
    requires OthersOk(states, bodies, chains, dropped, sessions, connected, i) && DistinctIds(sessions)
    requires i < |sessions| && connected <= |sessions|
    ensures OthersOk(states, bodies, chains, dropped + {sessions[i].id}, DroppedRecords(sessions, connected, i),
                     if i < connected then connected - 1 else connected, DroppedIndex(connected, i))
  {
    forall j | 0 <= j < |sessions| && j != i
      ensures SessionOk(states, bodies, chains, dropped + {sessions[i].id}, sessions[j], j < connected)
    {
      OtherDropped(states, bodies, chains, dropped, sessions[j], j < connected, sessions[i].id);
    }
    hide SessionOk;
  }

  lemma OtherDropped(states: map<Addr, State>, bodies: map<Addr, Body>, chains: map<nat, seq<Loc>>, dropped: set<nat>,
                     s: Session, connected: bool, o: nat)
    requires SessionOk(states, bodies, chains, dropped, s, connected) && s.id != o
    ensures SessionOk(states, bodies, chains, dropped + {o}, s, connected)
  {
  }

  /** The record of a dropped session, whose only packet is about to become a closing request. */
  lemma DroppedSessionOk(states: map<Addr, State>, bodies: map<Addr, Body>, chains: map<nat, seq<Loc>>,
                         dropped: set<nat>, s: Session, l: Loc)
    requires s.id in chains && chains[s.id] == [l] && s.head == l && s.tail.packet == l.packet && s.wireId == s.id
    requires s.id in dropped
    requires l.packet != NULL && l.packet in states && l.packet in bodies && l.slot < |bodies[l.packet].slots|
    requires SlotAt(bodies, l).next.packet == NULL && SlotAt(bodies, l).remoteId == 0
    ensures SessionOk(states, bodies, chains, dropped, s, false)
  {
  }

  /** What comes behind the first packet of a session's chain. */
  lemma ChainTail(states: map<Addr, State>, bodies: map<Addr, Body>, chains: map<nat, seq<Loc>>, dropped: set<nat>,
                  s: Session, connected: bool)
    requires SessionOk(states, bodies, chains, dropped, s, connected) && chains[s.id] != []
    ensures var c := chains[s.id]; var l := c[0];
      && l.packet in bodies && l.packet != NULL && l.slot < |bodies[l.packet].slots| && s.head == l
      && Linked(bodies, c[1..])
      && (if |c| == 1 then SlotAt(bodies, l).next.packet == NULL else SlotAt(bodies, l).next == c[1])
      && c[..1] == [l]
  {
  }

  /** Everyone else's view of one session being dropped: its chain was flushed (`bodies'`), its first
      slot rewritten and its record moved. */
  lemma OthersClosed(states: map<Addr, State>, bodies: map<Addr, Body>, chains: map<nat, seq<Loc>>, dropped: set<nat>,
                     states': map<Addr, State>, bodies': map<Addr, Body>, chains': map<nat, seq<Loc>>,
                     sessions: seq<Session>, connected: nat, i: nat, l: Loc, slot: Slot)
    requires OthersOk(states, bodies, chains, dropped, sessions, connected, i) && DistinctIds(sessions)
    requires i < |sessions| && connected <= |sessions| && Framed(states, bodies, states', bodies')
    requires RefsOk(bodies', chains', NULL, {}) && NULL !in bodies' && bodies'.Keys == states'.Keys
    requires forall o :: o in chains && o != sessions[i].id ==> o in chains' && chains'[o] == chains[o]
    requires l.packet in bodies' && l.slot < |bodies'[l.packet].slots|
    requires SlotAt(bodies', l).owner == sessions[i].id == slot.owner
    ensures OthersOk(states', WithSlot(bodies', l, slot), chains', dropped + {sessions[i].id},
                     DroppedRecords(sessions, connected, i),
                     if i < connected then connected - 1 else connected, DroppedIndex(connected, i))
  {
    hide OthersOk, RefsOk, Framed, DistinctIds, DroppedRecords;
    OthersFramed(states, bodies, chains, dropped, states', bodies', chains', sessions, connected, i);
    OthersRelinked(states', bodies', chains', dropped, sessions, connected, i, NULL, {}, l, slot);
    OthersDropped(states', WithSlot(bodies', l, slot), chains', dropped, sessions, connected, i);
  }

  /** Putting one record right makes all of them right. */
  lemma AllWithOne(states: map<Addr, State>, bodies: map<Addr, Body>, chains: map<nat, seq<Loc>>, dropped: set<nat>,
                   sessions: seq<Session>, connected: nat, i: nat, s: Session)
    requires OthersOk(states, bodies, chains, dropped, sessions, connected, i) && i < |sessions|
    requires SessionOk(states, bodies, chains, dropped, s, i < connected)
    ensures SessionsOk(states, bodies, chains, dropped, sessions[i := s], connected)
  {
  }

  lemma DroppedRecord(sessions: seq<Session>, connected: nat, i: nat)
    requires i < |sessions| && connected <= |sessions|
    ensures var f := DroppedIndex(connected, i);
      && f < |sessions|
      && DroppedRecords(sessions, connected, i)[f]
           == if i < connected then sessions[i] else sessions[i].(wireId := sessions[i].id)
  {
  }

  lemma DroppedChainKeys(sessions: seq<Session>, connected: nat, i: nat, chains: map<nat, seq<Loc>>)
    requires ChainKeysOk(sessions, chains) && i < |sessions| && connected <= |sessions|
    ensures ChainKeysOk(DroppedRecords(sessions, connected, i), chains)
  {
    if i < connected {
      ChainKeysPermuted(sessions, DroppedRecords(sessions, connected, i), chains, i, connected - 1);
    } else {
      ChainKeysSame(sessions, DroppedRecords(sessions, connected, i), chains, chains);
    }
  }

  /** The first packet of a chain does not come back further along. */
  lemma HeadNotInTail(chains: map<nat, seq<Loc>>, births: map<Addr, nat>, o: nat)
    requires ChainsOk(chains, births) && o in chains && chains[o] != []
    ensures chains[o][0].packet !in PacketsOf(chains[o][1..])
  {
  }

  /** Rewriting a slot's link and remote id keeps everything about packets. */
  lemma PacketsRelinked(states: map<Addr, State>, bodies: map<Addr, Body>, q: seq<Addr>, chains: map<nat, seq<Loc>>,
                        births: map<Addr, nat>, clock: nat, l: Loc, slot: Slot)
    requires PacketsOk(states, bodies, q, chains, births, clock, NULL, {})
    requires l.packet in bodies && l.slot < |bodies[l.packet].slots|
    requires slot.owner == SlotAt(bodies, l).owner && slot.index == SlotAt(bodies, l).index
    ensures PacketsOk(states, WithSlot(bodies, l, slot), q, chains, births, clock, NULL, {})
    ensures SameIndex(bodies[l.packet], WithSlot(bodies, l, slot)[l.packet])
  {
    hide OrderOk, BirthsOk, ChainsOk, RefsOk, SameIndex;
    RelinkedSameIndex(bodies, l, slot);
    RefsRelinked(bodies, WithSlot(bodies, l, slot), chains, NULL, {});
  }

  // ---------------------------------------------------------------- several sessions leave one after the other

  /** Where the record of session `o` is; behind the others if there is none. */
  ghost function Where(sessions: seq<Session>, o: nat): nat {
    if i: nat :| i < |sessions| && sessions[i].id == o then i else |sessions|
  }

  lemma WhereIs(sessions: seq<Session>, i: nat)
    requires DistinctIds(sessions) && i < |sessions|
    ensures Where(sessions, sessions[i].id) == i
  {
  }

  ghost function PeerOf(sessions: seq<Session>, o: nat): Peer {
    var i := Where(sessions, o);
    if i < |sessions| then sessions[i].peer else Peer(0, 0)
  }

  /** The records once the sessions at the first `n` positions of a packet have been removed, in that order. */
  ghost function Terminated(sessions: seq<Session>, b: Body, n: nat): seq<Session>
    requires IndexOk(b) && n <= b.remaining
  {
    if n == 0 then sessions
    else
      var before := Terminated(sessions, b, n - 1);
      var i := Where(before, b.slots[IndexAt(b, n - 1)].owner);
      if i < |before| then TableLemmas.Vacated(before, i) else before
  }

  lemma TerminatedMore(sessions: seq<Session>, b: Body, n: nat, i: nat)
    requires IndexOk(b) && n < b.remaining
    requires var r := Terminated(sessions, b, n); i == Where(r, b.slots[IndexAt(b, n)].owner) < |r|
    ensures Terminated(sessions, b, n + 1) == TableLemmas.Vacated(Terminated(sessions, b, n), i)
  {
  }

  /** Sessions and packets while the sessions of a packet are dropped. */
  datatype Parties = Parties(sessions: seq<Session>, connected: nat, bodies: map<Addr, Body>)

  /** What dropping the session that owns slot `k` of packet `p` does to records and packets: behind this
      packet its chain is given up, its record is made to end there and dropped, and the slot is rewritten. */
  ghost function OwnerDropped(d: Parties, chains: map<nat, seq<Loc>>, p: Addr, k: nat): Parties {
    if p in d.bodies && k < |d.bodies[p].slots| then
      var o := d.bodies[p].slots[k].owner;
      var i := Where(d.sessions, o);
      if i < |d.sessions| && d.connected <= |d.sessions| && o in chains && chains[o] != [] then
        var bodies := WithoutDebts(d.bodies, chains[o][1..]);
        var sessions := d.sessions[i := d.sessions[i].(tail := Loc(p, d.sessions[i].tail.slot))];
        Parties(DroppedRecords(sessions, d.connected, i), if i < d.connected then d.connected - 1 else d.connected,
                if p in bodies && k < |bodies[p].slots| then SlotClosed(bodies, Loc(p, k)) else bodies)
      else d
    else d
  }

  /** The slot ends its session's chain and has no remote id. */
  ghost function SlotClosed(bodies: map<Addr, Body>, l: Loc): map<Addr, Body>
    requires l.packet in bodies && l.slot < |bodies[l.packet].slots|
  {
    WithSlot(bodies, l, SlotAt(bodies, l).(next := Loc(NULL, SlotAt(bodies, l).next.slot), remoteId := 0))
  }

  /** The same for the sessions at the first `n` positions, in that order. */
  ghost function OwnersDropped(d: Parties, chains: map<nat, seq<Loc>>, p: Addr, b: Body, n: nat): Parties
    requires IndexOk(b) && n <= b.remaining
  {
    if n == 0 then d else OwnerDropped(OwnersDropped(d, chains, p, b, n - 1), chains, p, IndexAt(b, n - 1))
  }

  lemma SameOwnerDropped(d: Parties, chains0: map<nat, seq<Loc>>, chains: map<nat, seq<Loc>>, p: Addr, k: nat)
    requires p in d.bodies && k < |d.bodies[p].slots|
    requires var o := d.bodies[p].slots[k].owner; o in chains && o in chains0 && chains[o] == chains0[o]
    ensures OwnerDropped(d, chains0, p, k) == OwnerDropped(d, chains, p, k)
  {
  }

  /** Packet `p` is the first one of every session that owes it. */
  ghost predicate FirstForOwners(b: Body, p: Addr, chains: map<nat, seq<Loc>>) {
    IndexOk(b) && forall j: nat {:trigger IndexAt(b, j)} :: j < b.remaining ==>
      var o := b.slots[IndexAt(b, j)].owner;
      o in chains && chains[o] != [] && chains[o][0] == Loc(p, IndexAt(b, j))
  }

  /** The chains once every session in `dropped` has been reduced to its first packet. */
  ghost predicate Reduced(chains0: map<nat, seq<Loc>>, dropped: set<nat>, chains: map<nat, seq<Loc>>) {
    && chains.Keys == chains0.Keys
    && forall o :: o in chains && o in chains0 ==>
         if o in dropped then chains0[o] != [] && chains[o] == [chains0[o][0]] else chains[o] == chains0[o]
  }

  lemma OwnerNotDroppedYet(b: Body, p: Addr, chains: map<nat, seq<Loc>>, i: nat)
    requires FirstForOwners(b, p, chains) && i < b.remaining
    ensures b.slots[IndexAt(b, i)].owner !in OwnersBelow(b, i)
  {
  }

  lemma ReducedMore(chains0: map<nat, seq<Loc>>, dropped: set<nat>, chains: map<nat, seq<Loc>>, o: nat, l: Loc)
    requires Reduced(chains0, dropped, chains) && o in chains0 && chains0[o] != [] && chains0[o][0] == l
    ensures Reduced(chains0, dropped + {o}, chains[o := [l]])
  {
  }

  lemma SameIndexTwice(a: Body, b: Body, c: Body)
    requires SameIndex(a, b) && SameIndex(b, c)
    ensures SameIndex(a, c)
  {
  }

  /** Once all sessions that owe packet `p` have been dropped, it may become a closing request. */
  lemma SessionsClosed(states: map<Addr, State>, bodies: map<Addr, Body>, chains: map<nat, seq<Loc>>, dropped: set<nat>,
                       sessions: seq<Session>, connected: nat, p: Addr, state: State)
    requires SessionsOk(states, bodies, chains, dropped, sessions, connected)
    requires p in states && !states[p].closing && state.closing
    requires forall o, i {:trigger chains[o][i]} :: o in chains && 0 <= i < |chains[o]| && chains[o][i].packet == p ==>
      o in dropped
    requires forall o :: o in chains && o in dropped ==> |chains[o]| == 1 && chains[o][0].packet == p
    ensures SessionsOk(states[p := state], bodies, chains, {}, sessions, connected)
  {
  }

  /** The sessions with a link to packet `p` are those at its positions. */
  lemma LinkedOwners(bodies: map<Addr, Body>, chains: map<nat, seq<Loc>>, p: Addr, o: nat, i: nat)
    requires RefsOk(bodies, chains, NULL, {}) && NULL !in bodies && p in bodies
    requires o in chains && i < |chains[o]| && chains[o][i].packet == p
    ensures IndexOk(bodies[p]) && o in OwnersBelow(bodies[p], bodies[p].remaining)
  {
    LinkOwed(bodies, chains, o, i);
    var k := chains[o][i].slot;
    EnumeratesOwed(bodies[p], k);
    var j: nat :| j < bodies[p].remaining && IndexAt(bodies[p], j) == k;
  }

  lemma SameOwners(b: Body, c: Body)
    requires SameIndex(b, c) && IndexOk(b)
    ensures IndexOk(c) && OwnersBelow(b, b.remaining) == OwnersBelow(c, c.remaining)
    ensures forall j: nat :: j < b.remaining ==> IndexAt(c, j) == IndexAt(b, j)
  {
    assert forall j: nat :: j < |b.slots| ==> IndexAt(c, j) == IndexAt(b, j);
    forall j: nat | j < b.remaining
      ensures b.slots[IndexAt(b, j)].owner == c.slots[IndexAt(c, j)].owner
    {
      assert IndexAt(b, j) < |b.slots|;
    }
  }

  /** In a chain that holds an ordinary packet, all packets are ordinary. */
  lemma OrdinaryChain(states: map<Addr, State>, bodies: map<Addr, Body>, chains: map<nat, seq<Loc>>, s: Session,
                      connected: bool, i: nat)
    requires SessionOk(states, bodies, chains, {}, s, connected) && i < |chains[s.id]|
    requires chains[s.id][i].packet in states && !states[chains[s.id][i].packet].closing
    ensures chains[s.id][0].packet in states && !states[chains[s.id][0].packet].closing
  {
  }

  /** The queue depends on resends and closing requests only. */
  lemma PacketsRestated(states: map<Addr, State>, bodies: map<Addr, Body>, q: seq<Addr>, chains: map<nat, seq<Loc>>,
                        births: map<Addr, nat>, clock: nat, p: Addr, state: State)
    requires PacketsOk(states, bodies, q, chains, births, clock, NULL, {}) && p in states
    requires state.resends == states[p].resends && state.closing == states[p].closing
    ensures PacketsOk(states[p := state], bodies, q, chains, births, clock, NULL, {})
    ensures states[p := state].Keys == states.Keys
  {
    hide RefsOk, ChainsOk;
  }

  // ---------------------------------------------------------------- closing everything

  /** Slot `j` of packet `p` holds the closing request for session `j`. */
  ghost predicate ClosingSlots(b: Body, sessions: seq<Session>, from: nat) {
    && |b.slots| == b.remaining == |sessions|
    && forall j :: from <= j < |sessions| ==>
         var slot := b.slots[j];
         && slot.owner == sessions[j].id && slot.index == j
         && slot.next.packet == NULL && slot.remoteId == 0
  }

  /** Sessions whose only packet is the common closing request. */
  ghost predicate AllClosing(p: Addr, sessions: seq<Session>, chains: map<nat, seq<Loc>>) {
    && (forall j :: 0 <= j < |sessions| ==>
          && sessions[j].wireId == sessions[j].id && sessions[j].head == Loc(p, j) && sessions[j].tail.packet == p
          && sessions[j].id in chains && chains[sessions[j].id] == [Loc(p, j)])
    && ChainKeysOk(sessions, chains)
  }

  lemma AllClosingRefs(p: Addr, b: Body, sessions: seq<Session>, chains: map<nat, seq<Loc>>)
    requires p != NULL && AllClosing(p, sessions, chains) && ClosingSlots(b, sessions, 0) && sessions != []
    ensures IndexOk(b) && RefsOk(map[p := b], chains, NULL, {})
  {
    var bodies := map[p := b];
    assert forall k: nat :: k < |b.slots| ==> IndexAt(b, k) == k;
    forall a: Addr, k: nat | Owed(bodies, NULL, {}, a, k)
      ensures bodies[a].slots[k].owner in chains && Loc(a, k) in chains[bodies[a].slots[k].owner]
    {
      assert chains[sessions[k].id][0] == Loc(p, k);
    }
    forall o: nat, i: nat | o in chains && i < |chains[o]|
      ensures Owed(bodies, NULL, {}, chains[o][i].packet, chains[o][i].slot)
      ensures bodies[chains[o][i].packet].slots[chains[o][i].slot].owner == o
    {
      var j :| 0 <= j < |sessions| && sessions[j].id == o;
      assert chains[o] == [Loc(p, j)];
    }
  }

  lemma AllClosingOk(states: map<Addr, State>, p: Addr, b: Body, sessions: seq<Session>, chains: map<nat, seq<Loc>>,
                     births: map<Addr, nat>, clock: nat)
    requires p != NULL && AllClosing(p, sessions, chains) && ClosingSlots(b, sessions, 0) && sessions != []
    requires states.Keys == {p} && states[p].closing && states[p].resends <= RESENDS && BirthsOk(states, births, clock)
    ensures PacketsOk(states, map[p := b], [p], chains, births, clock, NULL, {})
    ensures SessionsOk(states, map[p := b], chains, {}, sessions, 0)
  {
    hide RefsOk;
    AllClosingRefs(p, b, sessions, chains);
    forall o | o in chains
      ensures |chains[o]| == 1
    {
      var k :| 0 <= k < |sessions| && sessions[k].id == o;
    }
    forall j | 0 <= j < |sessions|
      ensures SessionOk(states, map[p := b], chains, {}, sessions[j], j < 0)
    {
      assert chains[sessions[j].id][0] == Loc(p, j);
    }
  }
}
