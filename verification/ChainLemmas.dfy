/** How the reference invariant between packets and chains survives the elementary steps. */
module ChainLemmas {
  import opened IndexSet
  import opened ProxyState
  import opened QueueLemmas

  ghost function Without(c: seq<Loc>, i: nat): seq<Loc>
    requires i < |c|
  {
    c[..i] + c[i + 1..]
  }

  /** The arena after slot `k` of packet `a` has been given up by its session. */
  ghost function Disassociated(bodies: map<Addr, Body>, a: Addr, k: nat): map<Addr, Body>
    requires a in bodies && IndexOk(bodies[a]) && Owes(bodies[a], k)
  {
    if bodies[a].remaining > 1 then bodies[a := Drop(bodies[a], k)] else bodies - {a}
  }

  lemma ChainsWithout(chains: map<nat, seq<Loc>>, births: map<Addr, nat>, o: nat, i: nat)
    requires ChainsOk(chains, births) && o in chains && i < |chains[o]|
    ensures ChainsOk(chains[o := Without(chains[o], i)], births)
  {
  }

  /** `bodies'` is `bodies` without the debt `l`. */
  ghost predicate DebtRemoved(bodies: map<Addr, Body>, bodies': map<Addr, Body>, l: Loc) {
    && (forall x: Addr, y: nat {:trigger Owed(bodies', NULL, {}, x, y)} ::
          Owed(bodies', NULL, {}, x, y) <==> Owed(bodies, NULL, {}, x, y) && Loc(x, y) != l)
    && (forall x :: x in bodies' ==> x in bodies && SameSlots(bodies[x], bodies'[x]))
    && (forall x :: x in bodies && x != l.packet ==> x in bodies' && bodies'[x] == bodies[x])
    && (forall x :: x in bodies' ==> IndexOk(bodies'[x]) && bodies'[x].remaining > 0)
  }

  lemma OwedAfter(bodies: map<Addr, Body>, a: Addr, k: nat, x: Addr, y: nat)
    requires NULL !in bodies && a in bodies && IndexOk(bodies[a]) && Owes(bodies[a], k)
    ensures var bodies' := Disassociated(bodies, a, k);
      Owed(bodies', NULL, {}, x, y) <==> Owed(bodies, NULL, {}, x, y) && Loc(x, y) != Loc(a, k)
  {
    if bodies[a].remaining > 1 {
      DropRemovesExactly(bodies[a], k);
    } else if x == a && Owes(bodies[a], y) {
      EnumeratesOwed(bodies[a], y);
      EnumeratesOwed(bodies[a], k);
    }
  }

  lemma DisassociatedRemovesDebt(bodies: map<Addr, Body>, chains: map<nat, seq<Loc>>, a: Addr, k: nat)
    requires RefsOk(bodies, chains, NULL, {}) && NULL !in bodies
    requires a in bodies && IndexOk(bodies[a]) && Owes(bodies[a], k)
    ensures DebtRemoved(bodies, Disassociated(bodies, a, k), Loc(a, k))
  {
    if bodies[a].remaining > 1 { DropRemovesExactly(bodies[a], k); }
    forall x: Addr, y: nat
      ensures Owed(Disassociated(bodies, a, k), NULL, {}, x, y) <==>
        Owed(bodies, NULL, {}, x, y) && Loc(x, y) != Loc(a, k)
    {
      OwedAfter(bodies, a, k, x, y);
    }
  }

  lemma OwedStaysLinked(bodies: map<Addr, Body>, bodies': map<Addr, Body>, chains: map<nat, seq<Loc>>,
                        o: nat, i: nat, x: Addr, y: nat)
    requires RefsOk(bodies, chains, NULL, {})
    requires o in chains && i < |chains[o]| && DebtRemoved(bodies, bodies', chains[o][i])
    requires Owed(bodies', NULL, {}, x, y)
    ensures var o' := bodies'[x].slots[y].owner;
      && o' in chains
      && Loc(x, y) in (if o' == o then Without(chains[o], i) else chains[o'])
  {
  }

  lemma LinkStaysOwed(bodies: map<Addr, Body>, bodies': map<Addr, Body>, chains: map<nat, seq<Loc>>,
                      births: map<Addr, nat>, o: nat, i: nat, o': nat, j: nat)
    requires RefsOk(bodies, chains, NULL, {}) && ChainsOk(chains, births)
    requires o in chains && i < |chains[o]| && DebtRemoved(bodies, bodies', chains[o][i])
    requires o' in chains && j < |chains[o']| && (o' != o || j != i)
    ensures var l' := chains[o'][j];
      Owed(bodies', NULL, {}, l'.packet, l'.slot) && bodies'[l'.packet].slots[l'.slot].owner == o'
  {
  }

  lemma RefsDisassociated(bodies: map<Addr, Body>, bodies': map<Addr, Body>, chains: map<nat, seq<Loc>>,
                          births: map<Addr, nat>, o: nat, i: nat)
    requires RefsOk(bodies, chains, NULL, {}) && ChainsOk(chains, births)
    requires o in chains && i < |chains[o]| && DebtRemoved(bodies, bodies', chains[o][i])
    ensures RefsOk(bodies', chains[o := Without(chains[o], i)], NULL, {})
  {
    var chains': map<nat, seq<Loc>> := chains[o := Without(chains[o], i)];
    forall x: Addr, y: nat | Owed(bodies', NULL, {}, x, y)
      ensures bodies'[x].slots[y].owner in chains' && Loc(x, y) in chains'[bodies'[x].slots[y].owner]
    {
      OwedStaysLinked(bodies, bodies', chains, o, i, x, y);
    }
    forall o': nat, j: nat | o' in chains' && j < |chains'[o']|
      ensures Owed(bodies', NULL, {}, chains'[o'][j].packet, chains'[o'][j].slot)
      ensures bodies'[chains'[o'][j].packet].slots[chains'[o'][j].slot].owner == o'
    {
      LinkStaysOwed(bodies, bodies', chains, births, o, i, o', if o' != o || j < i then j else j + 1);
    }
  }

  ghost function StatesAfter(states: map<Addr, State>, bodies: map<Addr, Body>, a: Addr): map<Addr, State>
    requires a in bodies
  {
    if bodies[a].remaining > 1 then states else states - {a}
  }

  ghost function QueueAfter(q: seq<Addr>, bodies: map<Addr, Body>, j: nat): seq<Addr>
    requires j < |q| && q[j] in bodies
  {
    if bodies[q[j]].remaining > 1 then q else Cut(q, j)
  }

  /** The packets after the given slots have been given up, one after the other. */
  ghost function WithoutDebts(bodies: map<Addr, Body>, links: seq<Loc>): map<Addr, Body>
    decreases |links|
  {
    if links == [] then bodies else WithoutDebts(WithoutDebt(bodies, links[0]), links[1..])
  }

  ghost function WithoutDebt(bodies: map<Addr, Body>, l: Loc): map<Addr, Body> {
    if l.packet in bodies && IndexOk(bodies[l.packet]) && Owes(bodies[l.packet], l.slot) then
      Disassociated(bodies, l.packet, l.slot)
    else bodies
  }

  lemma NoDebts(bodies: map<Addr, Body>)
    ensures WithoutDebts(bodies, []) == bodies
  {
  }

  lemma OneDebt(bodies: map<Addr, Body>, l: Loc)
    ensures WithoutDebts(bodies, [l]) == WithoutDebt(bodies, l)
  {
    hide WithoutDebt;
    NoDebts(WithoutDebt(bodies, l));
    assert [l][1..] == [];
  }

  lemma DebtsOneByOne(bodies: map<Addr, Body>, links: seq<Loc>)
    requires links != []
    ensures WithoutDebts(bodies, links) == WithoutDebts(WithoutDebts(bodies, [links[0]]), links[1..])
  {
    OneDebt(bodies, links[0]);
    hide WithoutDebt;
  }

  lemma {:induction false} OneMoreDebt(bodies: map<Addr, Body>, links: seq<Loc>, l: Loc)
    ensures WithoutDebts(bodies, links + [l]) == WithoutDebts(WithoutDebts(bodies, links), [l])
    decreases |links|
  {
    hide WithoutDebt;
    if links == [] {
      assert links + [l] == [l];
    } else {
      assert (links + [l])[1..] == links[1..] + [l];
      OneMoreDebt(WithoutDebt(bodies, links[0]), links[1..], l);
    }
  }

  lemma KeysDisassociated(states: map<Addr, State>, bodies: map<Addr, Body>, q: seq<Addr>, births: map<Addr, nat>,
                          clock: nat, j: nat, k: nat)
    requires KeysOk(states, bodies, q, NULL) && BirthsOk(states, births, clock) && OrderOk(states, q, births)
    requires Distinct(q)
    requires j < |q| && q[j] in bodies && IndexOk(bodies[q[j]]) && Owes(bodies[q[j]], k)
    ensures KeysOk(StatesAfter(states, bodies, q[j]), Disassociated(bodies, q[j], k), QueueAfter(q, bodies, j), NULL)
    ensures BirthsOk(StatesAfter(states, bodies, q[j]), births, clock)
    ensures OrderOk(StatesAfter(states, bodies, q[j]), QueueAfter(q, bodies, j), births)
    ensures QueueAfter(q, bodies, j) == Kept(q, StatesAfter(states, bodies, q[j]).Keys)
  {
    hide OrderOk, IndexOk, Owes, Drop;
    if bodies[q[j]].remaining > 1 {
      KeptAll(q, states.Keys);
    } else {
      KeysCut(states, bodies, q, j);
      OrderCut(states, q, births, j);
    }
  }

  /** Giving up one link of one chain keeps everything else about packets, queue and chains. */
  lemma PacketsDisassociated(states: map<Addr, State>, bodies: map<Addr, Body>, q: seq<Addr>,
                             chains: map<nat, seq<Loc>>, births: map<Addr, nat>, clock: nat, o: nat, i: nat, j: nat)
    requires PacketsOk(states, bodies, q, chains, births, clock, NULL, {}) && Distinct(q)
    requires o in chains && i < |chains[o]| && j < |q| && q[j] == chains[o][i].packet
    ensures q[j] in bodies && IndexOk(bodies[q[j]]) && Owes(bodies[q[j]], chains[o][i].slot)
    ensures PacketsOk(StatesAfter(states, bodies, q[j]), Disassociated(bodies, q[j], chains[o][i].slot),
                      QueueAfter(q, bodies, j), chains[o := Without(chains[o], i)], births, clock, NULL, {})
    ensures QueueAfter(q, bodies, j) == Kept(q, StatesAfter(states, bodies, q[j]).Keys)
    ensures DebtRemoved(bodies, Disassociated(bodies, q[j], chains[o][i].slot), chains[o][i])
  {
    hide OrderOk, BirthsOk, ChainsOk, DebtRemoved, RefsOk, Owes, IndexOk, Disassociated, StatesAfter, QueueAfter;
    var l := chains[o][i];
    LinkOwed(bodies, chains, o, i);
    DisassociatedRemovesDebt(bodies, chains, l.packet, l.slot);
    RefsDisassociated(bodies, Disassociated(bodies, l.packet, l.slot), chains, births, o, i);
    ChainsWithout(chains, births, o, i);
    KeysDisassociated(states, bodies, q, births, clock, j, l.slot);
  }

  lemma LinkOwed(bodies: map<Addr, Body>, chains: map<nat, seq<Loc>>, o: nat, i: nat)
    requires RefsOk(bodies, chains, NULL, {}) && NULL !in bodies && o in chains && i < |chains[o]|
    ensures var l := chains[o][i];
      && l.packet in bodies && IndexOk(bodies[l.packet]) && Owes(bodies[l.packet], l.slot)
      && bodies[l.packet].remaining > 0 && bodies[l.packet].slots[l.slot].owner == o
  {
  }

  /** The packet and the slot behind a link say the same as before. */
  ghost predicate SameLink(states: map<Addr, State>, bodies: map<Addr, Body>, states': map<Addr, State>,
                           bodies': map<Addr, Body>, l: Loc) {
    && l.packet in bodies && l.packet in bodies' && |bodies[l.packet].slots| == |bodies'[l.packet].slots|
    && (l.slot < |bodies[l.packet].slots| ==> SameData(bodies[l.packet].slots[l.slot], bodies'[l.packet].slots[l.slot]))
    && l.packet in states && l.packet in states' && states[l.packet].closing == states'[l.packet].closing
  }

  /** A session whose chain and links an operation left alone is still described correctly. */
  lemma SessionSame(states: map<Addr, State>, bodies: map<Addr, Body>, chains: map<nat, seq<Loc>>, dropped: set<nat>,
                    states': map<Addr, State>, bodies': map<Addr, Body>, chains': map<nat, seq<Loc>>,
                      dropped': set<nat>,
                    s: Session, connected: bool)
    requires SessionOk(states, bodies, chains, dropped, s, connected)
    requires s.id in chains' && chains'[s.id] == chains[s.id]
    requires s.id in dropped <==> s.id in dropped'
    requires forall i :: 0 <= i < |chains[s.id]| ==> SameLink(states, bodies, states', bodies', chains[s.id][i])
    ensures SessionOk(states', bodies', chains', dropped', s, connected)
  {
  }

  /** Two bodies with the same index permutation over slots of the same owners. */
  ghost predicate SameIndex(b: Body, c: Body) {
    && b.remaining == c.remaining && |b.slots| == |c.slots|
    && forall k :: 0 <= k < |b.slots| ==> b.slots[k].index == c.slots[k].index && b.slots[k].owner == c.slots[k].owner
  }

  lemma SameIndexOwes(b: Body, c: Body)
    requires SameIndex(b, c)
    ensures IndexOk(b) ==> IndexOk(c)
    ensures forall k: nat :: Owes(b, k) <==> Owes(c, k)
  {
    assert forall k: nat :: k < |b.slots| ==> IndexAt(b, k) == IndexAt(c, k);
  }

  /** Rewriting links and remote ids does not change who owes what. */
  lemma RefsRelinked(bodies: map<Addr, Body>, bodies': map<Addr, Body>, chains: map<nat, seq<Loc>>, focus: Addr,
                     live: set<nat>)
    requires RefsOk(bodies, chains, focus, live)
    requires bodies'.Keys == bodies.Keys
    requires forall a :: a in bodies ==> SameIndex(bodies[a], bodies'[a])
    ensures RefsOk(bodies', chains, focus, live)
  {
    forall a | a in bodies
      ensures IndexOk(bodies[a]) ==> IndexOk(bodies'[a])
      ensures forall k: nat :: Owed(bodies', focus, live, a, k) <==> Owed(bodies, focus, live, a, k)
    {
      SameIndexOwes(bodies[a], bodies'[a]);
    }
    forall a: Addr, k: nat | Owed(bodies', focus, live, a, k)
      ensures bodies'[a].slots[k].owner in chains && Loc(a, k) in chains[bodies'[a].slots[k].owner]
    {
      assert Owed(bodies, focus, live, a, k);
    }
    forall o: nat, i: nat | o in chains && i < |chains[o]|
      ensures Owed(bodies', focus, live, chains[o][i].packet, chains[o][i].slot)
      ensures bodies'[chains[o][i].packet].slots[chains[o][i].slot].owner == o
    {
      assert Owed(bodies, focus, live, chains[o][i].packet, chains[o][i].slot);
    }
  }

  /** Slot `k` of the packet under construction joins the chain of the session it was made for. */
  lemma RefsPushed(bodies: map<Addr, Body>, chains: map<nat, seq<Loc>>, p: Addr, live: set<nat>, o: nat, k: nat)
    requires RefsOk(bodies, chains, p, live)
    requires p in bodies && k < |bodies[p].slots| && k !in live && bodies[p].slots[k].owner == o && o in chains
    ensures RefsOk(bodies, chains[o := chains[o] + [Loc(p, k)]], p, live + {k})
  {
    var chains': map<nat, seq<Loc>> := chains[o := chains[o] + [Loc(p, k)]];
    forall a: Addr, x: nat | Owed(bodies, p, live + {k}, a, x)
      ensures bodies[a].slots[x].owner in chains' && Loc(a, x) in chains'[bodies[a].slots[x].owner]
    {
      if a == p && x == k {
        assert chains'[o][|chains[o]|] == Loc(p, k);
      } else {
        assert Owed(bodies, p, live, a, x);
        var o' := bodies[a].slots[x].owner;
        var j :| 0 <= j < |chains[o']| && chains[o'][j] == Loc(a, x);
        assert chains'[o'][j] == Loc(a, x);
      }
    }
    forall o': nat, i: nat | o' in chains' && i < |chains'[o']|
      ensures Owed(bodies, p, live + {k}, chains'[o'][i].packet, chains'[o'][i].slot)
      ensures bodies[chains'[o'][i].packet].slots[chains'[o'][i].slot].owner == o'
    {
      if o' != o || i < |chains[o]| {
        assert chains'[o'][i] == chains[o'][i];
        assert Owed(bodies, p, live, chains[o'][i].packet, chains[o'][i].slot);
      }
    }
  }

  /** Once its index fields describe its owing sessions, the packet under construction is ordinary. */
  lemma RefsSettled(bodies: map<Addr, Body>, chains: map<nat, seq<Loc>>, p: Addr, live: set<nat>)
    requires RefsOk(bodies, chains, p, live) && NULL !in bodies
    requires p in bodies && IndexOk(bodies[p]) && bodies[p].remaining > 0
    requires forall k: nat :: k < |bodies[p].slots| ==> (k in live <==> Owes(bodies[p], k))
    ensures RefsOk(bodies, chains, NULL, {})
  {
    forall a: Addr, k: nat
      ensures Owed(bodies, NULL, {}, a, k) <==> Owed(bodies, p, live, a, k)
    {
    }
    forall a: Addr, k: nat | Owed(bodies, NULL, {}, a, k)
      ensures bodies[a].slots[k].owner in chains && Loc(a, k) in chains[bodies[a].slots[k].owner]
    {
      assert Owed(bodies, p, live, a, k);
    }
    forall o: nat, i: nat | o in chains && i < |chains[o]|
      ensures Owed(bodies, NULL, {}, chains[o][i].packet, chains[o][i].slot)
    {
      assert Owed(bodies, p, live, chains[o][i].packet, chains[o][i].slot);
    }
  }

  /** The converse: a packet may be set apart, keeping its owing sessions on record. */
  lemma RefsFocused(bodies: map<Addr, Body>, chains: map<nat, seq<Loc>>, p: Addr, live: set<nat>)
    requires RefsOk(bodies, chains, NULL, {}) && NULL !in bodies && p in bodies
    requires forall k: nat :: k < |bodies[p].slots| ==> (k in live <==> Owes(bodies[p], k))
    ensures RefsOk(bodies, chains, p, live)
  {
    forall a: Addr, k: nat | Owed(bodies, p, live, a, k)
      ensures bodies[a].slots[k].owner in chains && Loc(a, k) in chains[bodies[a].slots[k].owner]
    {
      assert Owed(bodies, NULL, {}, a, k);
    }
    forall o: nat, i: nat | o in chains && i < |chains[o]|
      ensures Owed(bodies, p, live, chains[o][i].packet, chains[o][i].slot)
    {
      assert Owed(bodies, NULL, {}, chains[o][i].packet, chains[o][i].slot);
    }
  }

  /** A session that owes only slot `k` of the packet set apart leaves the server. */
  lemma RefsTerminated(bodies: map<Addr, Body>, chains: map<nat, seq<Loc>>, p: Addr, live: set<nat>, o: nat, k: nat)
    requires RefsOk(bodies, chains, p, live)
    requires o in chains && chains[o] == [Loc(p, k)]
    ensures RefsOk(bodies, chains - {o}, p, live - {k})
  {
    assert Owed(bodies, p, live, chains[o][0].packet, chains[o][0].slot);
    forall a: Addr, x: nat | Owed(bodies, p, live - {k}, a, x)
      ensures bodies[a].slots[x].owner in chains - {o} && Loc(a, x) in (chains - {o})[bodies[a].slots[x].owner]
    {
      assert Owed(bodies, p, live, a, x);
    }
    forall o': nat, i: nat | o' in chains - {o} && i < |chains[o']|
      ensures Owed(bodies, p, live - {k}, chains[o'][i].packet, chains[o'][i].slot)
      ensures bodies[chains[o'][i].packet].slots[chains[o'][i].slot].owner == o'
    {
      assert Owed(bodies, p, live, chains[o'][i].packet, chains[o'][i].slot);
    }
  }

  lemma FramedTwice(states: map<Addr, State>, bodies: map<Addr, Body>, states': map<Addr, State>,
                    bodies': map<Addr, Body>, states'': map<Addr, State>, bodies'': map<Addr, Body>)
    requires Framed(states, bodies, states', bodies') && Framed(states', bodies', states'', bodies'')
    ensures Framed(states, bodies, states'', bodies'')
    ensures states''.Keys <= states'.Keys <= states.Keys
  {
  }

  ghost function PacketsOf(c: seq<Loc>): set<Addr> {
    set l | l in c :: l.packet
  }

  /** Packets outside `c` are exactly as they were. */
  ghost predicate OnlyIn(bodies: map<Addr, Body>, bodies': map<Addr, Body>, c: seq<Loc>) {
    forall a :: a in bodies && a !in PacketsOf(c) ==> a in bodies' && bodies'[a] == bodies[a]
  }

  lemma OnlyInMore(bodies: map<Addr, Body>, bodies': map<Addr, Body>, bodies'': map<Addr, Body>, c: seq<Loc>, p: Addr)
    requires OnlyIn(bodies, bodies', c) && p in PacketsOf(c)
    requires forall a :: a in bodies' && a != p ==> a in bodies'' && bodies''[a] == bodies'[a]
    ensures OnlyIn(bodies, bodies'', c)
  {
  }

  /** Giving up the first link of what remains of a chain leaves the links behind it intact. */
  lemma RestAfter(bodies: map<Addr, Body>, bodies': map<Addr, Body>, chains: map<nat, seq<Loc>>, births: map<Addr, nat>,
                  o: nat, n: nat)
    requires o in chains && n < |chains[o]| && ChainsOk(chains, births)
    requires Linked(bodies, chains[o][n..])
    requires forall a :: a in bodies && a != chains[o][n].packet ==> a in bodies' && bodies'[a] == bodies[a]
    ensures Without(chains[o], n)[n..] == chains[o][n + 1..]
    ensures Linked(bodies', chains[o][n + 1..])
    ensures PacketsOf(chains[o][n + 1..]) <= PacketsOf(chains[o][n..])
    ensures chains[o][n].packet in PacketsOf(chains[o][n..])
    ensures var next := bodies[chains[o][n].packet].slots[chains[o][n].slot].next;
      if n + 1 == |chains[o]| then next.packet == NULL else next.packet != NULL && next == chains[o][n + 1]
  {
  }
}
