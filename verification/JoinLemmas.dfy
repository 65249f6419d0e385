/** Creating packets and appending them to the chains of sessions. */
module JoinLemmas {
  import opened Basics
  import opened IndexSet
  import opened ProxyState
  import opened QueueLemmas
  import opened ChainLemmas

  // ---------------------------------------------------------------- new packets

  /** Every other allocated packet was created before `p`. */
  ghost predicate Youngest(states: map<Addr, State>, births: map<Addr, nat>, p: Addr) {
    forall a :: a in states && a != p ==> Birth(births, a) < Birth(births, p)
  }

  lemma PacketsAllocated(states: map<Addr, State>, bodies: map<Addr, Body>, q: seq<Addr>, chains: map<nat, seq<Loc>>,
                         births: map<Addr, nat>, clock: nat, p: Addr, state: State, body: Body)
    requires PacketsOk(states, bodies, q, chains, births, clock, NULL, {})
    requires p != NULL && p !in states
    ensures PacketsOk(states[p := state], bodies[p := body], q, chains, births[p := clock], clock + 1, p, {})
    ensures Youngest(states[p := state], births[p := clock], p) && p !in q
  {
    hide IndexOk, Owes, RefsOk, ChainsOk;
    RefsAllocated(bodies, bodies[p := body], chains, p);
    ChainsAllocated(bodies, chains, births, clock, p);
  }

  lemma ChainsAllocated(bodies: map<Addr, Body>, chains: map<nat, seq<Loc>>, births: map<Addr, nat>, clock: nat,
                        p: Addr)
    requires RefsOk(bodies, chains, NULL, {}) && NULL !in bodies && p !in bodies && ChainsOk(chains, births)
    ensures ChainsOk(chains, births[p := clock])
  {
  }

  lemma RefsAllocated(bodies: map<Addr, Body>, bodies': map<Addr, Body>, chains: map<nat, seq<Loc>>, p: Addr)
    requires RefsOk(bodies, chains, NULL, {}) && NULL !in bodies && p !in bodies
    requires p in bodies' && forall a :: a in bodies' && a != p ==> a in bodies && bodies'[a] == bodies[a]
    requires forall a :: a in bodies ==> a in bodies'
    ensures RefsOk(bodies', chains, p, {})
  {
    hide IndexOk, Owes;
    forall a: Addr, k: nat | Owed(bodies', p, {}, a, k)
      ensures bodies'[a].slots[k].owner in chains && Loc(a, k) in chains[bodies'[a].slots[k].owner]
    {
      assert Owed(bodies, NULL, {}, a, k);
    }
    forall o: nat, i: nat | o in chains && i < |chains[o]|
      ensures Owed(bodies', p, {}, chains[o][i].packet, chains[o][i].slot)
      ensures bodies'[chains[o][i].packet].slots[chains[o][i].slot].owner == o
    {
      assert Owed(bodies, NULL, {}, chains[o][i].packet, chains[o][i].slot);
    }
  }

  /** Appending the youngest packet to the queue keeps everything about packets, whether or not it is
      still set apart. */
  lemma PacketsEnqueued(states: map<Addr, State>, bodies: map<Addr, Body>, q: seq<Addr>, chains: map<nat, seq<Loc>>,
                        births: map<Addr, nat>, clock: nat, p: Addr, live: set<nat>, state: State)
    requires PacketsOk(states, bodies, q, chains, births, clock, p, live)
    requires p in states && p !in q && Youngest(states, births, p) && state.resends == RESENDS
    ensures PacketsOk(states[p := state], bodies, q + [p], chains, births, clock, p, live)
  {
    hide RefsOk, ChainsOk;
    OrderAppended(states, states[p := state], q, births, p);
  }

  /** A packet whose index fields name exactly its owing slots needs no exception any more. */
  lemma PacketsSettled(states: map<Addr, State>, bodies: map<Addr, Body>, q: seq<Addr>, chains: map<nat, seq<Loc>>,
                       births: map<Addr, nat>, clock: nat, p: Addr, live: set<nat>)
    requires PacketsOk(states, bodies, q, chains, births, clock, p, live)
    requires p in bodies && p in q && IndexOk(bodies[p]) && bodies[p].remaining > 0
    requires forall k: nat :: k < |bodies[p].slots| ==> (k in live <==> Owes(bodies[p], k))
    ensures PacketsOk(states, bodies, q, chains, births, clock, NULL, {})
  {
    hide OrderOk, ChainsOk, BirthsOk, RefsOk;
    RefsSettled(bodies, chains, p, live);
  }

  // ---------------------------------------------------------------- joining a chain

  function WithSlot(bodies: map<Addr, Body>, l: Loc, slot: Slot): map<Addr, Body>
    requires l.packet in bodies && l.slot < |bodies[l.packet].slots|
  {
    bodies[l.packet := bodies[l.packet].(slots := bodies[l.packet].slots[l.slot := slot])]
  }

  function SlotAt(bodies: map<Addr, Body>, l: Loc): Slot
    requires l.packet in bodies && l.slot < |bodies[l.packet].slots|
  {
    bodies[l.packet].slots[l.slot]
  }

  lemma WithSlotTwice(bodies: map<Addr, Body>, l: Loc, s: Slot, t: Slot)
    requires l.packet in bodies && l.slot < |bodies[l.packet].slots|
    ensures WithSlot(WithSlot(bodies, l, s), l, t) == WithSlot(bodies, l, t)
  {
    assert bodies[l.packet].slots[l.slot := s][l.slot := t] == bodies[l.packet].slots[l.slot := t];
  }

  /** The writes that append slot `l` to what session `s` owes: the slot itself and, unless the chain
      is empty, the link out of its last slot. */
  ghost function Joined(bodies: map<Addr, Body>, s: Session, l: Loc): map<Addr, Body>
    requires l.packet in bodies && l.slot < |bodies[l.packet].slots|
    requires s.head.packet != NULL ==> s.tail.packet in bodies && s.tail.slot < |bodies[s.tail.packet].slots|
  {
    var b := WithSlot(bodies, l, Slot(s.id, Loc(NULL, SlotAt(bodies, l).next.slot), l.slot,
                                      (s.remoteId + 1) % REMOTE_IDS));
    if s.head.packet == NULL then b else WithSlot(b, s.tail, SlotAt(b, s.tail).(next := l))
  }

  /** The packet differs in nothing but where its sessions' chains go on. */
  ghost predicate ButNext(b: Body, c: Body) {
    && c.remaining == b.remaining && |c.slots| == |b.slots|
    && forall k :: 0 <= k < |b.slots| ==> c.slots[k] == b.slots[k].(next := c.slots[k].next)
  }

  /** Every old packet, but for `p`, is what it was, apart from where chains go on. */
  ghost predicate OnlyNexts(bodies0: map<Addr, Body>, p: Addr, bodies: map<Addr, Body>) {
    forall a :: a in bodies0 && a != p ==> a in bodies && ButNext(bodies0[a], bodies[a])
  }

  lemma JoinedOnlyNexts(bodies0: map<Addr, Body>, bodies: map<Addr, Body>, s: Session, l: Loc)
    requires OnlyNexts(bodies0, l.packet, bodies) && l.packet in bodies && l.slot < |bodies[l.packet].slots|
    requires s.head.packet != NULL ==> s.tail.packet in bodies && s.tail.slot < |bodies[s.tail.packet].slots|
    ensures OnlyNexts(bodies0, l.packet, Joined(bodies, s, l))
  {
  }

  function JoinedSession(s: Session, l: Loc): Session {
    s.(remoteId := (s.remoteId + 1) % REMOTE_IDS, tail := l, head := if s.head.packet == NULL then l else s.head)
  }

  /** The end of a session's chain is where its pointers say it is. */
  ghost predicate EndsOk(chains: map<nat, seq<Loc>>, s: Session) {
    && s.id in chains
    && (chains[s.id] == [] ==> s.head.packet == NULL)
    && (chains[s.id] != [] ==> s.head.packet != NULL && s.tail == chains[s.id][|chains[s.id]| - 1])
  }

  lemma RefsSlotWritten(bodies: map<Addr, Body>, chains: map<nat, seq<Loc>>, p: Addr, live: set<nat>, k: nat,
                        slot: Slot)
    requires RefsOk(bodies, chains, p, live)
    requires p in bodies && k < |bodies[p].slots| && k !in live
    ensures RefsOk(WithSlot(bodies, Loc(p, k), slot), chains, p, live)
  {
    hide IndexOk, Owes;
    var bodies' := WithSlot(bodies, Loc(p, k), slot);
    forall a: Addr, x: nat | Owed(bodies', p, live, a, x)
      ensures bodies'[a].slots[x].owner in chains && Loc(a, x) in chains[bodies'[a].slots[x].owner]
    {
      assert Owed(bodies, p, live, a, x);
    }
    forall o: nat, i: nat | o in chains && i < |chains[o]|
      ensures Owed(bodies', p, live, chains[o][i].packet, chains[o][i].slot)
      ensures bodies'[chains[o][i].packet].slots[chains[o][i].slot].owner == o
    {
      assert Owed(bodies, p, live, chains[o][i].packet, chains[o][i].slot);
    }
  }

  lemma LinkOwedFocus(bodies: map<Addr, Body>, chains: map<nat, seq<Loc>>, p: Addr, live: set<nat>, o: nat, i: nat)
    requires RefsOk(bodies, chains, p, live) && o in chains && i < |chains[o]|
    ensures var l := chains[o][i];
      && l.packet in bodies && l.slot < |bodies[l.packet].slots| && bodies[l.packet].slots[l.slot].owner == o
      && (l.packet == p ==> l.slot in live)
  {
  }

  /** A slot outside `live` is free to join the chain of any session. */
  lemma RefsJoined(bodies: map<Addr, Body>, chains: map<nat, seq<Loc>>, p: Addr, live: set<nat>, s: Session, k: nat)
    requires RefsOk(bodies, chains, p, live) && EndsOk(chains, s)
    requires p in bodies && k < |bodies[p].slots| && k !in live
    ensures s.head.packet != NULL ==>
      s.tail.packet in bodies && s.tail.slot < |bodies[s.tail.packet].slots| && s.tail != Loc(p, k)
    ensures RefsOk(Joined(bodies, s, Loc(p, k)), chains[s.id := chains[s.id] + [Loc(p, k)]], p, live + {k})
  {
    hide RefsOk;
    if chains[s.id] != [] { LinkOwedFocus(bodies, chains, p, live, s.id, |chains[s.id]| - 1); }
    var slot := Slot(s.id, Loc(NULL, SlotAt(bodies, Loc(p, k)).next.slot), k, (s.remoteId + 1) % REMOTE_IDS);
    RefsSlotWritten(bodies, chains, p, live, k, slot);
    RefsRelinked(WithSlot(bodies, Loc(p, k), slot), Joined(bodies, s, Loc(p, k)), chains, p, live);
    RefsPushed(Joined(bodies, s, Loc(p, k)), chains, p, live, s.id, k);
  }

  lemma PacketsJoined(states: map<Addr, State>, bodies: map<Addr, Body>, q: seq<Addr>, chains: map<nat, seq<Loc>>,
                      births: map<Addr, nat>, clock: nat, p: Addr, live: set<nat>, s: Session, k: nat)
    requires PacketsOk(states, bodies, q, chains, births, clock, p, live) && EndsOk(chains, s)
    requires p in states && p in bodies && k < |bodies[p].slots| && k !in live
    requires forall i :: 0 <= i < |chains[s.id]| ==> Birth(births, chains[s.id][i].packet) < Birth(births, p)
    ensures s.head.packet != NULL ==>
      s.tail.packet in bodies && s.tail.slot < |bodies[s.tail.packet].slots| && s.tail != Loc(p, k)
    ensures PacketsOk(states, Joined(bodies, s, Loc(p, k)), q, chains[s.id := chains[s.id] + [Loc(p, k)]], births,
                      clock, p, live + {k})
  {
    hide RefsOk, OrderOk, BirthsOk;
    RefsJoined(bodies, chains, p, live, s, k);
  }

  /** The session that joined a packet is described by its longer chain. */
  lemma JoinedSessionOk(states: map<Addr, State>, bodies: map<Addr, Body>, chains: map<nat, seq<Loc>>,
                        births: map<Addr, nat>, s: Session, p: Addr, k: nat)
    requires SessionOk(states, bodies, chains, {}, s, true) && EndsOk(chains, s)
    requires p != NULL && p in bodies && k < |bodies[p].slots| && p in states && !states[p].closing
    requires forall i :: 0 <= i < |chains[s.id]| ==> chains[s.id][i].packet != p
    ensures SessionOk(states, Joined(bodies, s, Loc(p, k)), chains[s.id := chains[s.id] + [Loc(p, k)]], {},
                      JoinedSession(s, Loc(p, k)), true)
  {
    hide Linked, Consecutive, Joined;
    var c := chains[s.id];
    JoinedLinked(bodies, c, s, p, k);
    JoinedConsecutive(bodies, c, s, p, k);
    assert forall i :: 0 <= i < |c| ==> (c + [Loc(p, k)])[i] == c[i];
  }

  lemma JoinedConsecutive(bodies: map<Addr, Body>, c: seq<Loc>, s: Session, p: Addr, k: nat)
    requires Linked(bodies, c) && Consecutive(bodies, c, s.remoteId)
    requires (c == [] ==> s.head.packet == NULL) && (c != [] ==> s.head == c[0] && s.tail == c[|c| - 1])
    requires p != NULL && p in bodies && k < |bodies[p].slots|
    requires forall i :: 0 <= i < |c| ==> c[i].packet != p
    ensures s.head.packet != NULL ==> s.tail.packet in bodies && s.tail.slot < |bodies[s.tail.packet].slots|
    ensures Consecutive(Joined(bodies, s, Loc(p, k)), c + [Loc(p, k)], (s.remoteId + 1) % REMOTE_IDS)
  {
    hide Linked, Joined;
    JoinedLinked(bodies, c, s, p, k);
    var c' := c + [Loc(p, k)];
    var bodies' := Joined(bodies, s, Loc(p, k));
    forall i | 0 <= i < |c'| && c'[i].packet in bodies' && c'[i].slot < |bodies'[c'[i].packet].slots|
      ensures bodies'[c'[i].packet].slots[c'[i].slot].remoteId ==
        ((s.remoteId + 1) % REMOTE_IDS + i + 1 - |c'|) % REMOTE_IDS
    {
      if i < |c| {
        assert c'[i] == c[i];
      }
    }
  }

  lemma JoinedLinked(bodies: map<Addr, Body>, c: seq<Loc>, s: Session, p: Addr, k: nat)
    requires Linked(bodies, c) && (c == [] ==> s.head.packet == NULL)
    requires c != [] ==> s.head == c[0] && s.tail == c[|c| - 1]
    requires p != NULL && p in bodies && k < |bodies[p].slots|
    requires forall i :: 0 <= i < |c| ==> c[i].packet != p
    ensures s.head.packet != NULL ==> s.tail.packet in bodies && s.tail.slot < |bodies[s.tail.packet].slots|
    ensures Linked(Joined(bodies, s, Loc(p, k)), c + [Loc(p, k)])
    ensures var bodies' := Joined(bodies, s, Loc(p, k));
      && p in bodies' && k < |bodies'[p].slots| && SlotAt(bodies', Loc(p, k)).remoteId == (s.remoteId + 1) % REMOTE_IDS
      && forall i :: 0 <= i < |c| ==>
           && c[i].packet in bodies && c[i].slot < |bodies[c[i].packet].slots|
           && c[i].packet in bodies' && c[i].slot < |bodies'[c[i].packet].slots|
           && SlotAt(bodies', c[i]).remoteId == SlotAt(bodies, c[i]).remoteId
  {
    if c != [] { assert c[|c| - 1].packet in bodies; }
    forall i | 0 <= i < |c|
      ensures c[i].packet in bodies && c[i].slot < |bodies[c[i].packet].slots|
    {
      assert c[i].packet in bodies;
    }
  }

  /** Joining moves no data of any other session. */
  lemma JoinedOtherOk(states: map<Addr, State>, bodies: map<Addr, Body>, chains: map<nat, seq<Loc>>,
                      p: Addr, live: set<nat>, s: Session, k: nat, other: Session, connected: bool)
    requires RefsOk(bodies, chains, p, live) && EndsOk(chains, s)
    requires p in bodies && k < |bodies[p].slots| && k !in live
    requires SessionOk(states, bodies, chains, {}, other, connected) && other.id != s.id
    requires s.head.packet != NULL ==> s.tail.packet in bodies && s.tail.slot < |bodies[s.tail.packet].slots|
    requires bodies.Keys <= states.Keys
    ensures SessionOk(states, Joined(bodies, s, Loc(p, k)), chains[s.id := chains[s.id] + [Loc(p, k)]], {}, other,
                      connected)
  {
    hide SessionOk, RefsOk;
    var bodies' := Joined(bodies, s, Loc(p, k));
    OtherHasChain(states, bodies, chains, other, connected);
    forall i | 0 <= i < |chains[other.id]|
      ensures SameLink(states, bodies, states, bodies', chains[other.id][i])
    {
      LinkOwedFocus(bodies, chains, p, live, other.id, i);
      if chains[s.id] != [] { LinkOwedFocus(bodies, chains, p, live, s.id, |chains[s.id]| - 1); }
    }
    SessionSame(states, bodies, chains, {}, states, bodies', chains[s.id := chains[s.id] + [Loc(p, k)]], {}, other,
                connected);
  }

  lemma OtherHasChain(states: map<Addr, State>, bodies: map<Addr, Body>, chains: map<nat, seq<Loc>>, s: Session,
                      connected: bool)
    requires SessionOk(states, bodies, chains, {}, s, connected)
    ensures s.id in chains
  {
  }

  // ---------------------------------------------------------------- all sessions at once

  /** A packet set apart with no owing slots is on nobody's chain. */
  ghost predicate Unchained(chains: map<nat, seq<Loc>>, p: Addr) {
    forall o, i {:trigger chains[o][i]} :: o in chains && 0 <= i < |chains[o]| ==> chains[o][i].packet != p
  }

  lemma NothingOwedUnchained(bodies: map<Addr, Body>, chains: map<nat, seq<Loc>>, p: Addr)
    requires RefsOk(bodies, chains, p, {})
    ensures Unchained(chains, p)
  {
  }

  /** Sessions do not depend on a packet that is on nobody's chain. */
  lemma SessionsIgnore(states: map<Addr, State>, bodies: map<Addr, Body>, chains: map<nat, seq<Loc>>,
                       states': map<Addr, State>, bodies': map<Addr, Body>,
                       sessions: seq<Session>, connected: nat, p: Addr)
    requires SessionsOk(states, bodies, chains, {}, sessions, connected) && Unchained(chains, p)
    requires forall a :: a in states && a != p ==> a in states' && states'[a] == states[a]
    requires forall a :: a in bodies && a != p ==> a in bodies' && bodies'[a] == bodies[a]
    ensures SessionsOk(states', bodies', chains, {}, sessions, connected)
  {
    forall i | 0 <= i < |sessions|
      ensures SessionOk(states', bodies', chains, {}, sessions[i], i < connected)
    {
      SessionIgnores(states, bodies, chains, states', bodies', sessions[i], i < connected, p);
    }
  }

  lemma SessionIgnores(states: map<Addr, State>, bodies: map<Addr, Body>, chains: map<nat, seq<Loc>>,
                       states': map<Addr, State>, bodies': map<Addr, Body>, s: Session, connected: bool, p: Addr)
    requires SessionOk(states, bodies, chains, {}, s, connected) && Unchained(chains, p)
    requires forall a :: a in states && a != p ==> a in states' && states'[a] == states[a]
    requires forall a :: a in bodies && a != p ==> a in bodies' && bodies'[a] == bodies[a]
    ensures SessionOk(states', bodies', chains, {}, s, connected)
  {
  }

  /** One session joins a packet; all of them remain correctly described. */
  lemma SessionsJoined(states: map<Addr, State>, bodies: map<Addr, Body>, chains: map<nat, seq<Loc>>,
                       births: map<Addr, nat>,
                       sessions: seq<Session>, connected: nat, p: Addr, live: set<nat>, i: nat, k: nat)
    requires SessionsOk(states, bodies, chains, {}, sessions, connected)
    requires RefsOk(bodies, chains, p, live) && bodies.Keys <= states.Keys
    requires i < connected <= |sessions| && EndsOk(chains, sessions[i]) && sessions[i].id in chains
    requires forall j :: 0 <= j < |sessions| && j != i ==> sessions[j].id != sessions[i].id
    requires p != NULL && p in bodies && k < |bodies[p].slots| && k !in live && p in states && !states[p].closing
    requires forall x :: 0 <= x < |chains[sessions[i].id]| ==> chains[sessions[i].id][x].packet != p
    requires sessions[i].head.packet != NULL ==>
      sessions[i].tail.packet in bodies && sessions[i].tail.slot < |bodies[sessions[i].tail.packet].slots|
    ensures SessionsOk(states, Joined(bodies, sessions[i], Loc(p, k)),
                       chains[sessions[i].id := chains[sessions[i].id] + [Loc(p, k)]], {},
                       sessions[i := JoinedSession(sessions[i], Loc(p, k))], connected)
  {
    hide SessionOk, RefsOk, Joined, EndsOk;
    var sessions' := sessions[i := JoinedSession(sessions[i], Loc(p, k))];
    var chains': map<nat, seq<Loc>> := chains[sessions[i].id := chains[sessions[i].id] + [Loc(p, k)]];
    forall j | 0 <= j < |sessions'|
      ensures SessionOk(states, Joined(bodies, sessions[i], Loc(p, k)), chains', {}, sessions'[j], j < connected)
    {
      if j == i {
        JoinedSessionOk(states, bodies, chains, births, sessions[i], p, k);
      } else {
        JoinedOtherOk(states, bodies, chains, p, live, sessions[i], k, sessions[j], j < connected);
      }
    }
  }

  // ---------------------------------------------------------------- broadcasting

  /** The first `n` sessions have been sent packet `p`, each in the slot of its own index. */
  ghost predicate Reached(n: nat, p: Addr, sessions0: seq<Session>, chains0: map<nat, seq<Loc>>,
                          sessions: seq<Session>, chains: map<nat, seq<Loc>>) {
    && |sessions| == |sessions0|
    && chains.Keys == chains0.Keys
    && (forall j :: 0 <= j < |sessions0| ==>
          sessions[j] == if j < n then JoinedSession(sessions0[j], Loc(p, j)) else sessions0[j])
    && (forall j :: 0 <= j < |sessions0| && sessions0[j].id in chains0 && sessions0[j].id in chains ==>
          chains[sessions0[j].id] == chains0[sessions0[j].id] + if j < n then [Loc(p, j)] else [])
  }

  ghost predicate Filled(b: Body, n: nat, sessions0: seq<Session>) {
    && n <= |b.slots| == b.remaining <= |sessions0|
    && forall j :: 0 <= j < n ==> b.slots[j].index == j && b.slots[j].owner == sessions0[j].id
  }

  ghost function Below(n: nat): (r: set<nat>)
    ensures forall k: nat :: k in r <==> k < n
  {
    if n == 0 then {} else Below(n - 1) + {n - 1}
  }

  ghost predicate DistinctIds(sessions: seq<Session>) {
    forall i, j :: 0 <= i < |sessions| && 0 <= j < |sessions| && i != j ==> sessions[i].id != sessions[j].id
  }

  lemma TableDistinct(sessions: seq<Session>, connected: nat, lookup: seq<int>)
    requires TableOk(sessions, connected, lookup)
    ensures DistinctIds(sessions)
  {
  }

  lemma TableSameIds(sessions: seq<Session>, sessions': seq<Session>, connected: nat, lookup: seq<int>)
    requires TableOk(sessions, connected, lookup) && |sessions'| == |sessions|
    requires forall i :: 0 <= i < |sessions| ==>
      sessions'[i].id == sessions[i].id && sessions'[i].wireId == sessions[i].wireId
    ensures TableOk(sessions', connected, lookup)
  {
  }

  lemma ChainKeysSame(sessions: seq<Session>, sessions': seq<Session>, chains: map<nat, seq<Loc>>,
                      chains': map<nat, seq<Loc>>)
    requires ChainKeysOk(sessions, chains) && chains'.Keys <= chains.Keys && |sessions'| == |sessions|
    requires forall i :: 0 <= i < |sessions| ==> sessions'[i].id == sessions[i].id
    ensures ChainKeysOk(sessions', chains')
  {
  }

  /** What a push needs to know about its session, and what it leaves for the next one. */
  lemma ReachedNext(states: map<Addr, State>, bodies: map<Addr, Body>, births: map<Addr, nat>,
                    n: nat, p: Addr, sessions0: seq<Session>, chains0: map<nat, seq<Loc>>,
                    sessions: seq<Session>, chains: map<nat, seq<Loc>>, connected: nat)
    requires SessionsOk(states, bodies, chains, {}, sessions, connected)
    requires RefsOk(bodies, chains, p, Below(n)) && bodies.Keys == states.Keys && Youngest(states, births, p)
    requires Reached(n, p, sessions0, chains0, sessions, chains) && Unchained(chains0, p) && DistinctIds(sessions0)
    requires n < connected <= |sessions| && p in bodies && Filled(bodies[p], n, sessions0)
    requires connected == |bodies[p].slots|
    ensures var s := sessions[n];
      && s == sessions0[n] && s.id in chains0 && s.id in chains && chains[s.id] == chains0[s.id] && EndsOk(chains, s)
      && (forall j :: 0 <= j < |chains[s.id]| ==>
            chains[s.id][j].packet != p && Birth(births, chains[s.id][j].packet) < Birth(births, p))
      && (s.head.packet != NULL ==>
            s.tail.packet in bodies && s.tail.slot < |bodies[s.tail.packet].slots| && s.tail.packet != p)
  {
    hide RefsOk;
    var s := sessions[n];
    assert SessionOk(states, bodies, chains, {}, s, true);
    forall j | 0 <= j < |chains[s.id]|
      ensures chains[s.id][j].packet in states && chains[s.id][j].packet != p
    {
      assert chains0[s.id][j].packet != p;
      LinkOwedFocus(bodies, chains, p, Below(n), s.id, j);
    }
    if chains[s.id] != [] { LinkOwedFocus(bodies, chains, p, Below(n), s.id, |chains[s.id]| - 1); }
  }

  lemma ReachedOneMore(bodies: map<Addr, Body>, n: nat, p: Addr, sessions0: seq<Session>, chains0: map<nat, seq<Loc>>,
                       sessions: seq<Session>, chains: map<nat, seq<Loc>>)
    requires Reached(n, p, sessions0, chains0, sessions, chains) && DistinctIds(sessions0) && n < |sessions0|
    requires p in bodies && Filled(bodies[p], n, sessions0) && n < |bodies[p].slots|
    requires sessions[n].id in chains
    requires sessions[n].head.packet != NULL ==>
      var l := sessions[n].tail; l.packet in bodies && l.slot < |bodies[l.packet].slots| && l.packet != p
    ensures var l := Loc(p, n); var s := sessions[n]; var bodies' := Joined(bodies, s, l);
      && Reached(n + 1, p, sessions0, chains0, sessions[n := JoinedSession(s, l)], chains[s.id := chains[s.id] + [l]])
      && p in bodies' && Filled(bodies'[p], n + 1, sessions0)
      && Below(n) + {n} == Below(n + 1)
      && bodies'.Keys == bodies.Keys
  {
  }

  lemma FilledSettled(b: Body, sessions0: seq<Session>)
    requires Filled(b, |b.slots|, sessions0) && DistinctIds(sessions0)
    ensures IndexOk(b)
    ensures forall k: nat :: k < |b.slots| ==> (k in Below(|b.slots|) <==> Owes(b, k))
  {
  }
}
