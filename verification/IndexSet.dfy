/** The in-place set inside every packet: which of its sessions still owe an acknowledgement.

    A packet carries one slot per session it was sent to. Slots are never moved. Instead the
    `index` fields of the slots form a permutation: positions `0 .. remaining` enumerate the slots
    that are still owed, and dropping a slot patches two index fields. */
module IndexSet {

  /** Where a session's part of a packet lives: the packet's address and the slot inside it. */
  datatype Loc = Loc(packet: nat, slot: nat)

  datatype Slot = Slot(owner: nat, next: Loc, index: nat, remoteId: nat)

  datatype Body = Body(remaining: nat, slots: seq<Slot>)

  function IndexAt(b: Body, i: nat): nat
    requires i < |b.slots|
  {
    b.slots[i].index
  }

  /** No session has two slots, whether or not it still owes the packet. */
  ghost predicate DistinctOwners(b: Body) {
    forall i, j :: 0 <= i < j < |b.slots| ==> b.slots[i].owner != b.slots[j].owner
  }

  /** Positions below `remaining` point at slots that point back, and a position is either its own
      slot or lends itself to a slot outside the bounds. */
  ghost predicate IndexOk(b: Body) {
    && b.remaining <= |b.slots| && DistinctOwners(b)
    && forall i: nat {:trigger IndexAt(b, i)} :: i < b.remaining ==>
         && IndexAt(b, i) < |b.slots|
         && b.slots[IndexAt(b, i)].index == i
         && (IndexAt(b, i) == i || IndexAt(b, i) >= b.remaining)
  }

  /** Slot `k` is enumerated by the position its own index field names. */
  predicate Owes(b: Body, k: nat) {
    && k < |b.slots|
    && IndexAt(b, k) < b.remaining
    && IndexAt(b, k) < |b.slots|
    && b.slots[IndexAt(b, k)].index == k
  }

  function SetIndex(b: Body, i: nat, index: nat): Body
    requires i < |b.slots|
  {
    b.(slots := b.slots[i := b.slots[i].(index := index)])
  }

  /** The two index writes that take slot `k` out of the set, in the order they are made. */
  function Drop(b: Body, k: nat): Body
    requires IndexOk(b) && Owes(b, k)
  {
    var n := b.remaining - 1;
    var last := IndexAt(b, n);
    var b1 := SetIndex(b, last, b.slots[k].index);
    SetIndex(b1, b1.slots[k].index, last).(remaining := n)
  }

  /** Two slots that differ in nothing but the index field. */
  ghost predicate SameData(s: Slot, t: Slot) {
    s.owner == t.owner && s.next == t.next && s.remoteId == t.remoteId
  }

  ghost predicate SameSlots(b: Body, c: Body) {
    && |b.slots| == |c.slots|
    && forall k :: 0 <= k < |b.slots| ==> SameData(b.slots[k], c.slots[k])
  }

  /** Enumerating the positions yields exactly the owed slots ... */
  lemma EnumeratesOwed(b: Body, k: nat)
    requires IndexOk(b)
    ensures Owes(b, k) <==> exists i: nat :: i < b.remaining && IndexAt(b, i) == k
  {
    if Owes(b, k) {
      assert IndexAt(b, IndexAt(b, k)) == k;
    }
  }

  /** ... each of them once. */
  lemma EnumeratesOnce(b: Body, i: nat, j: nat)
    requires IndexOk(b) && i < b.remaining && j < b.remaining
    requires IndexAt(b, i) == IndexAt(b, j)
    ensures i == j
  {
  }

  lemma DropMovesNothing(b: Body, k: nat)
    requires IndexOk(b) && Owes(b, k)
    ensures SameSlots(b, Drop(b, k)) && DistinctOwners(Drop(b, k))
  {
  }

  /** The last position and the position of slot `k` have exchanged what they point to. */
  ghost predicate Exchanged(b: Body, c: Body, k: nat) {
    && 0 < b.remaining <= |b.slots| == |c.slots| && c.remaining == b.remaining - 1 && k < |b.slots|
    && var last := IndexAt(b, b.remaining - 1); var j := IndexAt(b, k);
       forall x: nat {:trigger b.slots[x]} {:trigger c.slots[x]} :: x < |b.slots| ==>
         c.slots[x].index == if x == j then last else if x == last then j else b.slots[x].index
  }

  lemma DropExchanges(b: Body, k: nat)
    requires IndexOk(b) && Owes(b, k)
    ensures Exchanged(b, Drop(b, k), k)
  {
    hide DistinctOwners;
  }

  lemma ExchangedOk(b: Body, c: Body, k: nat)
    requires IndexOk(b) && Owes(b, k) && Exchanged(b, c, k) && DistinctOwners(c)
    ensures IndexOk(c)
  {
    hide DistinctOwners;
    assert IndexAt(b, IndexAt(b, k)) == k;
    forall i: nat | i < c.remaining
      ensures
        && IndexAt(c, i) < |c.slots| && c.slots[IndexAt(c, i)].index == i
        && (IndexAt(c, i) == i || IndexAt(c, i) >= c.remaining)
    {
      assert IndexAt(b, i) < |b.slots| && IndexAt(b, b.remaining - 1) < |b.slots|;
    }
  }

  lemma ExchangedOwes(b: Body, c: Body, k: nat, x: nat)
    requires IndexOk(b) && Owes(b, k) && Exchanged(b, c, k)
    ensures Owes(c, x) <==> Owes(b, x) && x != k
  {
    hide DistinctOwners;
    assert IndexAt(b, IndexAt(b, k)) == k && IndexAt(b, b.remaining - 1) < |b.slots|;
  }

  /** Dropping a slot removes that slot and no other, and moves no session data. */
  lemma DropRemovesExactly(b: Body, k: nat)
    requires IndexOk(b) && Owes(b, k)
    ensures var c := Drop(b, k);
      && IndexOk(c) && c.remaining == b.remaining - 1 && SameSlots(b, c)
      && forall x: nat :: Owes(c, x) <==> Owes(b, x) && x != k
  {
    hide DistinctOwners, SameSlots, Drop, Owes;
    DropMovesNothing(b, k);
    DropExchanges(b, k);
    ExchangedOk(b, Drop(b, k), k);
    forall x: nat
      ensures Owes(Drop(b, k), x) <==> Owes(b, x) && x != k
    {
      ExchangedOwes(b, Drop(b, k), k, x);
    }
  }

  /** A new packet is owed by everyone it was sent to. */
  lemma NewIsOwedByAll(b: Body)
    requires b.remaining == |b.slots| && forall i: nat :: i < |b.slots| ==> IndexAt(b, i) == i
    requires DistinctOwners(b)
    ensures IndexOk(b) && forall k: nat :: k < |b.slots| ==> Owes(b, k)
  {
  }

  /** The slots in `ks` are taken out one after the other. */
  ghost function DropAll(b: Body, ks: seq<nat>): Body
    decreases |ks|
  {
    if ks == [] || !IndexOk(b) || !Owes(b, ks[0]) then b else DropAll(Drop(b, ks[0]), ks[1..])
  }

  /** After any sequence of drops the set has lost exactly the dropped slots, and no slot has moved. */
  lemma {:induction false} DropAllRemovesExactly(b: Body, ks: seq<nat>)
    requires IndexOk(b) && forall i :: 0 <= i < |ks| ==> Owes(b, ks[i])
    requires forall i, j :: 0 <= i < j < |ks| ==> ks[i] != ks[j]
    ensures var c := DropAll(b, ks);
      && IndexOk(c) && c.remaining == b.remaining - |ks| && SameSlots(b, c)
      && forall x: nat :: Owes(c, x) <==> Owes(b, x) && x !in ks
    decreases |ks|
  {
    if ks != [] {
      hide IndexOk, Owes, SameSlots, Drop;
      DropRemovesExactly(b, ks[0]);
      DropAllRemovesExactly(Drop(b, ks[0]), ks[1..]);
      SameSlotsTwice(b, Drop(b, ks[0]), DropAll(b, ks));
      assert ks == [ks[0]] + ks[1..];
    }
  }

  lemma SameSlotsTwice(b: Body, c: Body, d: Body)
    requires SameSlots(b, c) && SameSlots(c, d)
    ensures SameSlots(b, d)
  {
  }

  ghost function OwedBelow(b: Body, n: nat): set<nat>
    requires n <= b.remaining <= |b.slots|
  {
    set i: nat | i < n :: IndexAt(b, i)
  }

  lemma OwedBelowNext(b: Body, n: nat)
    requires IndexOk(b) && n < b.remaining
    ensures OwedBelow(b, n + 1) == OwedBelow(b, n) + {IndexAt(b, n)} && IndexAt(b, n) !in OwedBelow(b, n)
  {
  }

  lemma {:induction false} OwedBelowSize(b: Body, n: nat)
    requires IndexOk(b) && n <= b.remaining
    ensures b.remaining <= |b.slots| && |OwedBelow(b, n)| == n
  {
    hide DistinctOwners;
    if n == 0 {
      assert OwedBelow(b, 0) == {};
    } else {
      hide IndexOk, OwedBelow, IndexAt;
      OwedBelowSize(b, n - 1);
      OwedBelowNext(b, n - 1);
    }
  }

  /** The counter is the size of the set. */
  lemma RemainingCountsOwed(b: Body)
    requires IndexOk(b)
    ensures |set k: nat | k < |b.slots| && Owes(b, k)| == b.remaining
  {
    OwedBelowSize(b, b.remaining);
    forall k: nat ensures k in OwedBelow(b, b.remaining) <==> k < |b.slots| && Owes(b, k) {
      EnumeratesOwed(b, k);
    }
    assert OwedBelow(b, b.remaining) == set k: nat | k < |b.slots| && Owes(b, k);
  }

  /** The slots enumerated from position `i` on. */
  ghost function OwedFrom(b: Body, i: nat): set<nat>
    requires b.remaining <= |b.slots|
  {
    set j: nat | i <= j < b.remaining :: IndexAt(b, j)
  }

  /** The sessions that own the slots at the first `n` positions. */
  ghost function OwnersBelow(b: Body, n: nat): set<nat>
    requires IndexOk(b) && n <= b.remaining
  {
    set j: nat | j < n :: b.slots[IndexAt(b, j)].owner
  }

  lemma OwedFromNext(b: Body, i: nat)
    requires IndexOk(b) && i < b.remaining
    ensures IndexAt(b, i) in OwedFrom(b, i) && OwedFrom(b, i) - {IndexAt(b, i)} == OwedFrom(b, i + 1)
    ensures OwnersBelow(b, i + 1) == OwnersBelow(b, i) + {b.slots[IndexAt(b, i)].owner}
  {
  }

  lemma OwedFromStart(b: Body)
    requires IndexOk(b)
    ensures forall k: nat :: k < |b.slots| ==> (k in OwedFrom(b, 0) <==> Owes(b, k))
  {
    forall k: nat | k < |b.slots|
      ensures k in OwedFrom(b, 0) <==> Owes(b, k)
    {
      EnumeratesOwed(b, k);
    }
  }
}
