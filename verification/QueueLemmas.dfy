/** Facts about the retransmit queue as a sequence: filtering, totals and the resend order. */
module QueueLemmas {
  import opened IndexSet
  import opened ProxyState

  ghost function Cut(q: seq<Addr>, i: nat): seq<Addr>
    requires i < |q|
  {
    q[..i] + q[i + 1..]
  }

  ghost predicate Distinct(q: seq<Addr>) {
    forall i, j :: 0 <= i < j < |q| ==> q[i] != q[j]
  }

  lemma CutAt(q: seq<Addr>, i: nat)
    requires i < |q|
    ensures forall j :: 0 <= j < |q| - 1 ==> Cut(q, i)[j] == q[if j < i then j else j + 1]
    ensures Distinct(q) ==> Distinct(Cut(q, i))
  {
  }

  /** The pointer writes that unlink the element at position `i` of `q`, leaving `r`. */
  lemma Unlinked(next: map<Addr, Addr>, prev: map<Addr, Addr>, head: Addr, tail: Addr, q: seq<Addr>, i: nat,
                 r: seq<Addr>)
    requires QueueOk(next, prev, head, tail, q) && i < |q|
    requires |r| == |q| - 1 && Distinct(r)
    requires forall j :: 0 <= j < |r| ==> r[j] == q[if j < i then j else j + 1]
    ensures prev[q[i]] == NULL || prev[q[i]] in next
    ensures var p := q[i];
      QueueOk(if prev[p] == NULL then next else next[prev[p] := next[p]],
              if next[p] == NULL then prev else prev[next[p] := prev[p]],
              if prev[p] == NULL then next[p] else head,
              if next[p] == NULL then prev[p] else tail,
              r)
  {
  }

  /** The pointer writes that move the head of `q` behind its tail, giving `r`. */
  lemma Rotated(next: map<Addr, Addr>, prev: map<Addr, Addr>, head: Addr, tail: Addr, q: seq<Addr>, r: seq<Addr>)
    requires QueueOk(next, prev, head, tail, q) && |q| > 1
    requires |r| == |q| && Distinct(r)
    requires forall j :: 0 <= j < |r| ==> r[j] == q[if j < |q| - 1 then j + 1 else 0]
    ensures QueueOk(next[head := NULL][tail := head], prev[next[head] := NULL][head := tail], next[head], head, r)
  {
  }

  lemma {:induction false} KeptAll(q: seq<Addr>, alive: set<Addr>)
    requires forall i :: 0 <= i < |q| ==> q[i] in alive
    ensures Kept(q, alive) == q
  {
    if q != [] { KeptAll(q[1..], alive); }
  }

  lemma {:induction false} KeptTwice(q: seq<Addr>, alive: set<Addr>, alive': set<Addr>)
    requires alive' <= alive
    ensures Kept(Kept(q, alive), alive') == Kept(q, alive')
  {
    if q != [] {
      KeptTwice(q[1..], alive, alive');
      var rest := Kept(q[1..], alive);
      if q[0] in alive {
        assert Kept(q, alive)[1..] == rest;
      } else {
        assert Kept(q, alive) == rest;
      }
    }
  }

  lemma {:induction false} KeptWithout(q: seq<Addr>, alive: set<Addr>, i: nat)
    requires i < |q|
    requires Distinct(q)
    requires forall j :: 0 <= j < |q| ==> (q[j] in alive <==> j != i)
    ensures Kept(q, alive) == Cut(q, i)
  {
    if i == 0 {
      KeptAll(q[1..], alive);
    } else {
      KeptWithout(q[1..], alive, i - 1);
      assert Cut(q, i) == [q[0]] + Cut(q[1..], i - 1);
    }
  }

  lemma {:induction false} KeptAppend(q: seq<Addr>, a: Addr, alive: set<Addr>)
    ensures Kept(q + [a], alive) == Kept(q, alive) + (if a in alive then [a] else [])
  {
    if q == [] {
      assert q + [a] == [a];
    } else {
      KeptAppend(q[1..], a, alive);
      assert (q + [a])[1..] == q[1..] + [a];
    }
  }

  lemma KeptHead(q: seq<Addr>, alive: set<Addr>)
    requires q != [] && q[0] in alive
    ensures Kept(q, alive) != [] && Kept(q, alive)[0] == q[0] && Kept(q, alive)[1..] == Kept(q[1..], alive)
  {
  }

  lemma {:induction false} KeptMembers(q: seq<Addr>, alive: set<Addr>)
    ensures forall a :: a in Kept(q, alive) <==> a in q && a in alive
    ensures |Kept(q, alive)| <= |q|
  {
    if q != [] { KeptMembers(q[1..], alive); }
  }

  lemma {:induction false} TotalAppend(q: seq<Addr>, a: Addr, states: map<Addr, State>, m: State -> nat)
    requires a in states
    ensures Total(q + [a], states, m) == Total(q, states, m) + m(states[a])
  {
    if q == [] {
      assert q + [a] == [a];
      assert Total([a][1..], states, m) == 0;
    } else {
      TotalAppend(q[1..], a, states, m);
      assert (q + [a])[1..] == q[1..] + [a];
    }
  }

  lemma {:induction false} TotalSame(q: seq<Addr>, states: map<Addr, State>, states': map<Addr, State>, m: State -> nat)
    requires forall i :: 0 <= i < |q| ==> q[i] in states && q[i] in states' && states[q[i]] == states'[q[i]]
    ensures Total(q, states, m) == Total(q, states', m)
  {
    if q != [] { TotalSame(q[1..], states, states', m); }
  }

  lemma {:induction false} KeptDistinct(q: seq<Addr>, alive: set<Addr>)
    requires Distinct(q)
    ensures Distinct(Kept(q, alive))
  {
    if q != [] {
      KeptDistinct(q[1..], alive);
      KeptMembers(q[1..], alive);
      var rest := Kept(q[1..], alive);
      forall i | 0 <= i < |rest|
        ensures rest[i] != q[0]
      {
        assert rest[i] in rest;
      }
    }
  }

  lemma {:induction false} TotalKept(q: seq<Addr>, alive: set<Addr>, states: map<Addr, State>, m: State -> nat)
    ensures Total(Kept(q, alive), states, m) <= Total(q, states, m)
  {
    if q != [] {
      TotalKept(q[1..], alive, states, m);
      if q[0] in alive {
        assert Kept(q, alive)[1..] == Kept(q[1..], alive);
      } else {
        assert Kept(q, alive) == Kept(q[1..], alive);
      }
    }
  }

  lemma OrderCut(states: map<Addr, State>, q: seq<Addr>, births: map<Addr, nat>, i: nat)
    requires OrderOk(states, q, births) && Distinct(q) && i < |q|
    ensures OrderOk(states - {q[i]}, Cut(q, i), births)
  {
    CutAt(q, i);
  }

  /** Removing a packet from the arena and from the queue. */
  lemma KeysCut(states: map<Addr, State>, bodies: map<Addr, Body>, q: seq<Addr>, j: nat)
    requires KeysOk(states, bodies, q, NULL) && Distinct(q) && j < |q|
    ensures KeysOk(states - {q[j]}, bodies - {q[j]}, Cut(q, j), NULL)
    ensures Cut(q, j) == Kept(q, states.Keys - {q[j]})
  {
    KeptWithout(q, states.Keys - {q[j]}, j);
    KeptMembers(q, states.Keys - {q[j]});
  }

  /** Rotating the head to the end costs it one resend; that is what keeps the order. */
  lemma OrderRotated(states: map<Addr, State>, states': map<Addr, State>, q: seq<Addr>, births: map<Addr, nat>)
    requires OrderOk(states, q, births) && q != [] && q[0] in states'
    requires forall j :: 0 < j < |q| ==> q[j] in states' && q[j] in states && states'[q[j]] == states[q[j]]
    requires states'[q[0]].closing || states[q[0]].resends == states'[q[0]].resends + 1
    requires states'[q[0]].resends <= RESENDS
    requires !states'[q[0]].closing ==> !states[q[0]].closing
    ensures OrderOk(states', q[1..] + [q[0]], births)
  {
  }

  lemma OrderAppended(states: map<Addr, State>, states': map<Addr, State>, q: seq<Addr>, births: map<Addr, nat>,
                      p: Addr)
    requires OrderOk(states, q, births) && p in states'
    requires forall j :: 0 <= j < |q| ==> q[j] in states' && q[j] in states && states'[q[j]] == states[q[j]]
    requires states'[p].resends == RESENDS
    requires forall j :: 0 <= j < |q| ==> Birth(births, q[j]) < Birth(births, p)
    ensures OrderOk(states', q + [p], births)
  {
  }

  /** An ordinary packet at the head of the queue with no resends left is the first packet of every
      chain of ordinary packets that holds it. */
  lemma ExhaustedHeadIsFirst(states: map<Addr, State>, q: seq<Addr>, births: map<Addr, nat>,
                             chains: map<nat, seq<Loc>>, o: nat, i: nat)
    requires OrderOk(states, q, births) && ChainsOk(chains, births)
    requires q != [] && !states[q[0]].closing && states[q[0]].resends == 0
    requires o in chains && i < |chains[o]| && chains[o][i].packet == q[0]
    requires chains[o][0].packet in q && !states[chains[o][0].packet].closing
    ensures i == 0
  {
  }
}
