/** When the queue is in the order in which its packets are due, as the run-time checks demand: what a run of the
    timer does to that order, and that nothing else disturbs it. */
module StampOrder {
  import opened IndexSet
  import opened ProxyState
  import opened QueueLemmas
  import opened JoinLemmas
  import opened SessionLemmas
  import opened History
  import opened Draining
  import opened ProxyServer
  import opened Effects
  import opened SoundStates
  import opened Timeout

  predicate Before(a: Timespec, b: Timespec) {
    a.sec < b.sec || (a.sec == b.sec && a.nsec <= b.nsec)
  }

  /** Less time has gone by since a later point in time. */
  lemma ElapsedLess(at: Timespec, a: Timespec, b: Timespec)
    requires IsTime(at) && IsTime(a) && IsTime(b) && Before(a, b)
    ensures Elapsed(at, b) <= Elapsed(at, a)
  {
  }

  /** The packets of the queue were stamped one after the other, and not after `now`. */
  ghost predicate Sorted(q: seq<Addr>, states: map<Addr, State>, now: Timespec) {
    && (forall i :: 0 <= i < |q| ==>
          q[i] in states && IsTime(states[q[i]].stamp) && Before(states[q[i]].stamp, now))
    && forall i, j :: 0 <= i < j < |q| && q[i] in states && q[j] in states ==>
         Before(states[q[i]].stamp, states[q[j]].stamp)
  }

  /** What the check of the queue demands of each packet but the first at the time `at`: it is not due before
      the one in front of it. */
  ghost predicate InOrder(q: seq<Addr>, states: map<Addr, State>, at: Timespec) {
    forall i :: 0 < i < |q| && q[i - 1] in states && q[i] in states ==>
      Elapsed(at, states[q[i]].stamp) <= Elapsed(at, states[q[i - 1]].stamp)
  }

  // ---------------------------------------------------------------- sorted queues

  lemma {:induction false} KeptSorted(q: seq<Addr>, states: map<Addr, State>, now: Timespec, alive: set<Addr>,
                                      states': map<Addr, State>)
    requires Sorted(q, states, now) && (forall a :: a in alive <==> a in states')
    requires forall a :: a in q && a in alive ==> a in states' && a in states && states'[a].stamp == states[a].stamp
    ensures Sorted(Kept(q, alive), states', now)
  {
    if q != [] {
      KeptSorted(q[1..], states, now, alive, states');
      KeptMembers(q[1..], alive);
    }
  }

  /** A packet is due. */
  predicate Due(s: State, delay: nat, now: Timespec) {
    Remaining(now, s.stamp, delay) == 0
  }

  lemma DueWhen(s: State, delay: nat, now: Timespec)
    requires IsTime(now) && IsTime(s.stamp) && Before(s.stamp, now) && 0 < delay < ID_COUNT
    ensures Due(s, delay, now) <==> Elapsed(now, s.stamp) >= delay
    ensures s.stamp == now ==> !Due(s, delay, now)
  {
    ElapsedLess(now, s.stamp, now);
  }

  /** If the first packet is not due then none is. */
  lemma NoneDue(q: seq<Addr>, states: map<Addr, State>, delay: nat, now: Timespec, i: nat)
    requires Sorted(q, states, now) && IsTime(now) && 0 < delay < ID_COUNT && i < |q|
    requires !Due(states[q[0]], delay, now)
    ensures !Due(states[q[i]], delay, now)
  {
    hide Elapsed, Due;
    DueWhen(states[q[0]], delay, now);
    DueWhen(states[q[i]], delay, now);
    if i > 0 { ElapsedLess(now, states[q[0]].stamp, states[q[i]].stamp); }
  }

  // ---------------------------------------------------------------- a run of the timer

  /** A firing stamps the packet anew. */
  predicate Restamped(s: State) {
    s.resends > 0 || !s.closing
  }

  /** While the timer runs: `m` packets of the queue have not been dealt with; then comes the ping `g`, unless
      everybody who owed it is gone or nobody was pinged, and then what has been stamped anew. */
  ghost predicate Parted(q: seq<Addr>, states: map<Addr, State>, m: nat, g: Addr, now: Timespec, later: Timespec) {
    && m <= |q| && Sorted(q[..m], states, now) && g !in q[..m]
    && (g in states ==> m < |q| && q[m] == g && states[g] == State(RESENDS, false, later, Ping))
    && forall i :: m < i < |q| || (i == m < |q| && g !in states) ==>
         q[i] in states && q[i] != g && states[q[i]].stamp == now
  }

  /** Something has been stamped anew. */
  ghost predicate Fresh(q: seq<Addr>, states: map<Addr, State>, m: nat, g: Addr) {
    |q| > if g in states then m + 1 else m
  }

  /** Something that is due will be stamped anew when its turn comes. */
  ghost predicate Restamps(q: seq<Addr>, states: map<Addr, State>, delay: nat, now: Timespec) {
    exists i :: 0 <= i < |q| && q[i] in states && Due(states[q[i]], delay, now) && Restamped(states[q[i]])
  }

  lemma {:induction false} KeptConcat(a: seq<Addr>, b: seq<Addr>, alive: set<Addr>)
    ensures Kept(a + b, alive) == Kept(a, alive) + Kept(b, alive)
  {
    hide Kept;
    if a == [] {
      assert a + b == b;
      NoneKept(alive);
    } else {
      assert (a + b)[0] == a[0] && (a + b)[1..] == a[1..] + b;
      FirstKept(a + b, alive);
      FirstKept(a, alive);
      KeptConcat(a[1..], b, alive);
    }
  }

  lemma NoneKept(alive: set<Addr>)
    ensures Kept([], alive) == []
  {
  }

  lemma FirstKept(q: seq<Addr>, alive: set<Addr>)
    requires q != []
    ensures Kept(q, alive) == (if q[0] in alive then [q[0]] else []) + Kept(q[1..], alive)
  {
  }

  /** A packet that is sent again, or released, is no longer among the old ones. */
  lemma HeadParted(q: seq<Addr>, states: map<Addr, State>, now: Timespec, q': seq<Addr>, states': map<Addr, State>,
                   m: nat, g: Addr, later: Timespec)
    requires QueueIn(q, states) && Parted(q, states, m, g, now, later) && m > 0
    requires if Restamped(states[q[0]]) then
               q' == q[1..] + [q[0]] && q[0] in states' && states' == states[q[0] := states'[q[0]]]
               && states'[q[0]].stamp == now
             else q' == q[1..] && states' == states - {q[0]}
    ensures m - 1 <= |q'| && Parted(q', states', m - 1, g, now, later) && q'[..m - 1] == q[1..m]
    ensures Fresh(q', states', m - 1, g) <==> Restamped(states[q[0]]) || Fresh(q, states, m, g)
  {
    var p := q[0];
    assert p in q[..m];
    assert q'[..m - 1] == q[..m][1..];
    forall i | 0 <= i < m - 1
      ensures q'[i] == q[i + 1] != p
    {
    }
    forall i | m - 1 <= i < |q| - 1
      ensures q'[i] == q[i + 1] != p
    {
    }
    hide QueueIn;
  }

  /** What the packets behind the old ones come to when some are released. */
  lemma RestParted(q: seq<Addr>, states: map<Addr, State>, m: nat, g: Addr, now: Timespec, later: Timespec,
                   states': map<Addr, State>)
    requires QueueIn(q, states) && Parted(q, states, m, g, now, later) && 0 < m
    requires forall a :: a in states' && a != q[0] ==> a in states && states'[a] == states[a]
    ensures var rest := Kept(q[m..], states'.Keys);
      && (g in states' ==> rest != [] && rest[0] == g && states'[g] == State(RESENDS, false, later, Ping))
      && forall i :: 0 < i < |rest| || (i == 0 < |rest| && g !in states') ==>
           rest[i] in states' && rest[i] != g && states'[rest[i]].stamp == now
  {
    var rest := Kept(q[m..], states'.Keys);
    assert q[0] in q[..m];
    var n := if g in states then m + 1 else m;
    var back := Kept(q[n..], states'.Keys);
    KeptMembers(q[n..], states'.Keys);
    if g in states {
      assert q[m..][1..] == q[n..];
      assert rest == (if g in states' then [g] else []) + back;
    }
    forall i | 0 <= i < |back|
      ensures back[i] in states' && back[i] != g && states'[back[i]].stamp == now
    {
      assert back[i] in back;
    }
  }

  /** The timer gives up on a packet: others that nobody owes any more are released, wherever they are. */
  lemma GivenUpParted(q: seq<Addr>, states: map<Addr, State>, now: Timespec, q': seq<Addr>, states': map<Addr, State>,
                      m: nat, g: Addr, later: Timespec) returns (m': nat)
    requires QueueIn(q, states) && Parted(q, states, m, g, now, later) && m > 0
    requires q[0] in states' && states'[q[0]].stamp == now && q' == Kept(q[1..], states'.Keys) + [q[0]]
    requires forall a :: a in states' && a != q[0] ==> a in states && states'[a] == states[a]
    ensures Parted(q', states', m', g, now, later) && m' <= |q'| && Fresh(q', states', m', g)
  {
    var alive := states'.Keys;
    var front, rest := Kept(q[1..m], alive), Kept(q[m..], alive);
    m' := |front|;
    assert q[1..] == q[1..m] + q[m..];
    KeptConcat(q[1..m], q[m..], alive);
    assert q' == front + rest + [q[0]];
    assert q'[..m'] == front;
    FrontParted(q, states, m, g, now, later, states');
    RestParted(q, states, m, g, now, later, states');
    assert q[0] in q[..m];
    hide QueueIn, Sorted, Kept;
  }

  lemma FrontParted(q: seq<Addr>, states: map<Addr, State>, m: nat, g: Addr, now: Timespec, later: Timespec,
                    states': map<Addr, State>)
    requires QueueIn(q, states) && Parted(q, states, m, g, now, later) && m > 0
    requires forall a :: a in states' && a != q[0] ==> a in states && states'[a] == states[a]
    ensures Sorted(Kept(q[1..m], states'.Keys), states', now) && g !in Kept(q[1..m], states'.Keys)
  {
    assert q[1..m] == q[..m][1..];
    SortedTail(q[..m], states, now);
    forall a | a in q[1..m]
      ensures a != q[0]
    {
    }
    KeptSorted(q[1..m], states, now, states'.Keys, states');
    KeptMembers(q[1..m], states'.Keys);
  }

  lemma SortedTail(q: seq<Addr>, states: map<Addr, State>, now: Timespec)
    requires Sorted(q, states, now) && q != []
    ensures Sorted(q[1..], states, now)
  {
  }

  lemma FiredParted(q: seq<Addr>, states: map<Addr, State>, now: Timespec, q': seq<Addr>, states': map<Addr, State>,
                    m: nat, g: Addr, later: Timespec) returns (m': nat)
    requires QueueIn(q, states) && Fired(q, states, now, q', states') && Parted(q, states, m, g, now, later) && m > 0
    ensures Parted(q', states', m', g, now, later) && m' <= |q'|
    ensures Restamped(states[q[0]]) ==> Fresh(q', states', m', g)
    ensures !Restamped(states[q[0]]) ==>
      m' == m - 1 && q'[..m'] == q[1..m] && states' == states - {q[0]}
      && (Fresh(q', states', m', g) <==> Fresh(q, states, m, g))
  {
    hide Parted, Fresh, QueueIn;
    if Restamped(states[q[0]]) && states[q[0]].resends == 0 {
      m' := GivenUpParted(q, states, now, q', states', m, g, later);
    } else {
      m' := m - 1;
      HeadParted(q, states, now, q', states', m, g, later);
    }
  }

  /** No packet of the queue is due. */
  ghost predicate NothingDue(s: Snapshot, now: Timespec) {
    forall i :: 0 <= i < |s.queue| ==> s.queue[i] in s.states && !Due(s.states[s.queue[i]], s.delay, now)
  }

  lemma PartedNotDue(s: Snapshot, m: nat, g: Addr, now: Timespec, later: Timespec)
    requires Parted(s.queue, s.states, m, g, now, later) && IsTime(now) && 0 < s.delay < ID_COUNT
    requires Remaining(now, later, s.delay) > 0
    ensures m <= |s.queue|
    ensures HeadDue(s, now) ==> m > 0 && Due(s.states[s.queue[0]], s.delay, now)
    ensures !HeadDue(s, now) ==> NothingDue(s, now)
  {
    hide Sorted, Elapsed, Remaining;
    assert Sorted(s.queue[..m], s.states, now);
    forall i | m <= i < |s.queue|
      ensures s.queue[i] in s.states && !Due(s.states[s.queue[i]], s.delay, now)
    {
      if s.queue[i] != g { DueWhen(s.states[s.queue[i]], s.delay, now); }
    }
    if !HeadDue(s, now) {
      forall i | 0 <= i < m
        ensures s.queue[i] in s.states && !Due(s.states[s.queue[i]], s.delay, now)
      {
        SortedMembers(s.queue[..m], s.states, now, i);
        SortedMembers(s.queue[..m], s.states, now, 0);
        assert s.queue[..m][i] == s.queue[i] && s.queue[..m][0] == s.queue[0];
        NoneDue(s.queue[..m], s.states, s.delay, now, i);
      }
    }
  }

  lemma SortedMembers(q: seq<Addr>, states: map<Addr, State>, now: Timespec, i: nat)
    requires Sorted(q, states, now) && i < |q|
    ensures q[i] in states && IsTime(states[q[i]].stamp) && Before(states[q[i]].stamp, now)
  {
  }

  /** A whole run of the timer: something has been stamped anew if something old was due that would be. */
  lemma {:induction false} PathParted(path: seq<Snapshot>, m: nat, g: Addr, now: Timespec, later: Timespec)
    returns (m': nat)
    requires FiringPath(path, now) && !HeadDue(path[|path| - 1], now) && IsTime(now)
    requires Parted(path[0].queue, path[0].states, m, g, now, later)
    requires Remaining(now, later, path[0].delay) > 0
    ensures var t := path[|path| - 1];
      && Parted(t.queue, t.states, m', g, now, later) && NothingDue(t, now)
      && (Fresh(t.queue, t.states, m', g) <==>
            Fresh(path[0].queue, path[0].states, m, g)
            || Restamps(path[0].queue[..m], path[0].states, path[0].delay, now))
    decreases |path|
  {
    hide Snapshot.Sound, Parted, Fresh, Firing, HeadDue, Restamps, NothingDue;
    var s := path[0];
    SoundDelay(s);
    PartedNotDue(s, m, g, now, later);
    if |path| == 1 {
      m' := m;
      NothingToRestamp(s, m, now);
    } else {
      var t := path[1];
      PathRest(path, now);
      FiringParts(s, t, now);
      var m1 := FiredParted(s.queue, s.states, now, t.queue, t.states, m, g, later);
      m' := PathParted(path[1..], m1, g, now, later);
      RestampsNext(s.queue, s.states, t.queue[..m1], t.states, m, s.delay, now);
    }
  }

  lemma FiringParts(s: Snapshot, t: Snapshot, now: Timespec)
    requires s.Sound() && Firing(s, t, now)
    ensures QueueIn(s.queue, s.states) && Fired(s.queue, s.states, now, t.queue, t.states) && t.delay == s.delay
  {
    hide Snapshot.Sound, Handled, Dealt, Descends;
    SoundQueue(s);
  }

  lemma PathRest(path: seq<Snapshot>, now: Timespec)
    requires FiringPath(path, now) && |path| > 1
    ensures FiringPath(path[1..], now) && HeadDue(path[0], now) && Firing(path[0], path[1], now)
  {
    hide Snapshot.Sound, Firing, HeadDue;
    forall k | 0 <= k < |path| - 2
      ensures HeadDue(path[1..][k], now) && Firing(path[1..][k], path[1..][k + 1], now)
    {
      assert HeadDue(path[k + 1], now) && Firing(path[k + 1], path[k + 2], now);
    }
  }

  lemma NothingToRestamp(s: Snapshot, m: nat, now: Timespec)
    requires NothingDue(s, now) && m <= |s.queue|
    ensures !Restamps(s.queue[..m], s.states, s.delay, now)
  {
  }

  lemma RestampsNext(q: seq<Addr>, states: map<Addr, State>, q': seq<Addr>, states': map<Addr, State>, m: nat,
                     delay: nat, now: Timespec)
    requires QueueIn(q, states) && 0 < m <= |q| && Due(states[q[0]], delay, now)
    ensures Restamped(states[q[0]]) ==> Restamps(q[..m], states, delay, now)
    ensures !Restamped(states[q[0]]) && q' == q[1..m] && states' == states - {q[0]} ==>
      (Restamps(q', states', delay, now) <==> Restamps(q[..m], states, delay, now))
  {
    assert q[..m][0] == q[0];
    if !Restamped(states[q[0]]) && q' == q[1..m] && states' == states - {q[0]} {
      if Restamps(q[..m], states, delay, now) {
        var i :| 0 <= i < m && q[..m][i] in states && Due(states[q[..m][i]], delay, now)
                 && Restamped(states[q[..m][i]]);
        assert q'[i - 1] == q[i];
      }
      if Restamps(q', states', delay, now) {
        var i :| 0 <= i < |q'| && q'[i] in states' && Due(states'[q'[i]], delay, now) && Restamped(states'[q'[i]]);
        assert q[..m][i + 1] == q'[i];
      }
    }
  }

  // ---------------------------------------------------------------- who stays connected

  /** The timer gives up on such a packet. */
  predicate GivenUp(s: State, delay: nat, now: Timespec) {
    Due(s, delay, now) && s.resends == 0 && !s.closing
  }

  ghost predicate KeepsUp(s: Snapshot, o: nat, now: Timespec) {
    o in s.chains && forall x :: 0 <= x < |s.chains[o]| && s.chains[o][x].packet in s.states ==>
      !GivenUp(s.states[s.chains[o][x].packet], s.delay, now)
  }

  /** Some connected session owes nothing that the timer gives up on. */
  ghost predicate SomebodyKeepsUp(s: Snapshot, now: Timespec) {
    exists i :: 0 <= i < s.connected && i < |s.sessions| && KeepsUp(s, s.sessions[i].id, now)
  }

  lemma OwnerLink(s: Snapshot, p: Addr, o: nat) returns (x: nat)
    requires s.Sound() && p in s.bodies && IndexOk(s.bodies[p]) && o in OwnersBelow(s.bodies[p], s.bodies[p].remaining)
    ensures o in s.chains && x < |s.chains[o]| && s.chains[o][x].packet == p
  {
    hide QueueOk, TableOk, SessionsOk, ChainKeysOk, Recorded, OrderOk, BirthsOk, ChainsOk;
    var b := s.bodies[p];
    var j: nat :| j < b.remaining && b.slots[IndexAt(b, j)].owner == o;
    EnumeratesOwed(b, IndexAt(b, j));
    assert Owed(s.bodies, NULL, {}, p, IndexAt(b, j));
    x :| 0 <= x < |s.chains[o]| && s.chains[o][x] == Loc(p, IndexAt(b, j));
  }

  /** A session with a record of what was pushed to it, which owes no closing request, is connected; one that is
      connected has both. */
  lemma ConnectedWith(s: Snapshot, o: nat) returns (j: nat)
    requires s.Sound() && o in s.chains && o in s.history
    requires forall x :: 0 <= x < |s.chains[o]| && s.chains[o][x].packet in s.states ==>
               !s.states[s.chains[o][x].packet].closing
    ensures j < s.connected && j < |s.sessions| && s.sessions[j].id == o
  {
    hide QueueOk, TableOk, PacketsOk, ChainsLogged, SentLogged, Linked, Consecutive;
    j :| 0 <= j < |s.sessions| && s.sessions[j].id == o;
    assert SessionOk(s.states, s.bodies, s.chains, {}, s.sessions[j], j < s.connected);
  }

  /** A session that keeps up is connected after a firing if it was before, and owes what it did. */
  lemma KeepsUpOn(s: Snapshot, t: Snapshot, now: Timespec, i: nat)
    requires s.Sound() && t.Sound() && Firing(s, t, now) && HeadDue(s, now) && i < s.connected && i < |s.sessions|
    requires KeepsUp(s, s.sessions[i].id, now)
    ensures SomebodyKeepsUp(t, now)
  {
    hide Snapshot.Sound, Dealt, Descends, OwnersBelow, IndexOk;
    var o, p := s.sessions[i].id, s.queue[0];
    ConnectedLinks(s, i);
    if s.states[p].resends == 0 && o in OwnersBelow(s.bodies[p], s.bodies[p].remaining) {
      var x := OwnerLink(s, p, o);
      assert false;
    }
    assert o in t.chains && t.chains[o] == s.chains[o];
    forall x | 0 <= x < |t.chains[o]| && t.chains[o][x].packet in t.states
      ensures var a := t.states[t.chains[o][x].packet]; !a.closing && !GivenUp(a, t.delay, now)
    {
      FiredLink(s, t, now, t.chains[o][x].packet);
    }
    var j := ConnectedWith(t, o);
  }

  /** And the other way round. */
  lemma KeptUpBefore(s: Snapshot, t: Snapshot, now: Timespec, j: nat)
    requires s.Sound() && t.Sound() && Firing(s, t, now) && HeadDue(s, now) && j < t.connected && j < |t.sessions|
    requires KeepsUp(t, t.sessions[j].id, now)
    ensures SomebodyKeepsUp(s, now)
  {
    hide Snapshot.Sound, Dealt, OwnersBelow, IndexOk;
    var o, p := t.sessions[j].id, s.queue[0];
    ConnectedLinks(t, j);
    assert GoesBack(t.sessions[j], true, s.sessions, s.connected);
    var i :| 0 <= i < |s.sessions| && SameSession(s.sessions[i], t.sessions[j]) && i < s.connected;
    ConnectedLinks(s, i);
    FirstOfOwner(s, t, now, o);
    assert t.chains[o] == s.chains[o];
    forall x | 0 <= x < |s.chains[o]|
      ensures !GivenUp(s.states[s.chains[o][x].packet], s.delay, now)
    {
      FiredLink(s, t, now, t.chains[o][x].packet);
    }
  }

  /** The sessions that the timer gives up on are left owing a closing request. */
  lemma FirstOfOwner(s: Snapshot, t: Snapshot, now: Timespec, o: nat)
    requires s.Sound() && t.Sound() && Firing(s, t, now) && o in t.chains
    requires forall x :: 0 <= x < |t.chains[o]| ==>
      t.chains[o][x].packet in t.states && !t.states[t.chains[o][x].packet].closing
    ensures o in s.chains && t.chains[o] == s.chains[o]
  {
    hide Snapshot.Sound, Descends;
    var p := s.queue[0];
    forall a | s.states[p].resends == 0 && !s.states[p].closing && a in OwnersBelow(s.bodies[p], s.bodies[p].remaining)
      ensures a in t.chains && t.chains[a] != [] && t.chains[a][0].packet == p
    {
      var j: nat :| j < s.bodies[p].remaining && s.bodies[p].slots[IndexAt(s.bodies[p], j)].owner == a;
    }
  }

  /** What one packet is after a firing, for those who owe it. */
  lemma FiredLink(s: Snapshot, t: Snapshot, now: Timespec, a: Addr)
    requires s.Sound() && Firing(s, t, now) && a in s.states && a in t.states && !s.states[a].closing
    ensures t.delay == s.delay
    ensures !GivenUp(s.states[a], s.delay, now) && HeadDue(s, now) ==>
      !t.states[a].closing && !GivenUp(t.states[a], t.delay, now)
    ensures !t.states[a].closing ==> (GivenUp(s.states[a], s.delay, now) <==> GivenUp(t.states[a], t.delay, now))
  {
    hide Handled, Dealt, Descends, QueueOk, PacketsOk, TableOk, SessionsOk, ChainKeysOk, Recorded;
  }

  lemma FiringKeepsUp(s: Snapshot, t: Snapshot, now: Timespec)
    requires s.Sound() && t.Sound() && Firing(s, t, now) && HeadDue(s, now)
    ensures SomebodyKeepsUp(s, now) <==> SomebodyKeepsUp(t, now)
  {
    hide Snapshot.Sound, Firing, KeepsUp;
    if SomebodyKeepsUp(s, now) {
      var i :| 0 <= i < s.connected && i < |s.sessions| && KeepsUp(s, s.sessions[i].id, now);
      KeepsUpOn(s, t, now, i);
    }
    if SomebodyKeepsUp(t, now) {
      var j :| 0 <= j < t.connected && j < |t.sessions| && KeepsUp(t, t.sessions[j].id, now);
      KeptUpBefore(s, t, now, j);
    }
  }

  lemma {:induction false} PathKeepsUp(path: seq<Snapshot>, now: Timespec)
    requires FiringPath(path, now)
    ensures SomebodyKeepsUp(path[0], now) <==> SomebodyKeepsUp(path[|path| - 1], now)
    decreases |path|
  {
    hide Snapshot.Sound, Firing, HeadDue, SomebodyKeepsUp;
    if |path| > 1 {
      PathRest(path, now);
      FiringKeepsUp(path[0], path[1], now);
      PathKeepsUp(path[1..], now);
    }
  }

  /** Once nothing is due, everybody keeps up who is connected. */
  lemma SomebodyIsLeft(s: Snapshot, now: Timespec)
    requires s.Sound() && NothingDue(s, now)
    ensures SomebodyKeepsUp(s, now) <==> s.connected > 0
  {
    if s.connected > 0 {
      ConnectedLinks(s, 0);
      Queued(s);
    }
  }

  // ---------------------------------------------------------------- the ping

  /** Everybody who is connected owes the ping. */
  ghost predicate AllOwe(s: Snapshot, g: Addr) {
    forall i :: 0 <= i < s.connected && i < |s.sessions| && s.sessions[i].id in s.chains ==>
      exists x :: 0 <= x < |s.chains[s.sessions[i].id]| && s.chains[s.sessions[i].id][x].packet == g
  }

  lemma FiringAllOwe(s: Snapshot, t: Snapshot, now: Timespec, g: Addr)
    requires s.Sound() && t.Sound() && Firing(s, t, now) && AllOwe(s, g)
    ensures AllOwe(t, g)
  {
    hide Snapshot.Sound, Dealt, Handled, Fired;
    forall j | 0 <= j < t.connected && j < |t.sessions| && t.sessions[j].id in t.chains
      ensures exists x :: 0 <= x < |t.chains[t.sessions[j].id]| && t.chains[t.sessions[j].id][x].packet == g
    {
      ConnectedLinks(t, j);
      assert GoesBack(t.sessions[j], true, s.sessions, s.connected);
      var i :| 0 <= i < |s.sessions| && SameSession(s.sessions[i], t.sessions[j]) && i < s.connected;
      FirstOfOwner(s, t, now, t.sessions[j].id);
    }
  }

  lemma {:induction false} PathAllOwe(path: seq<Snapshot>, now: Timespec, g: Addr)
    requires FiringPath(path, now) && AllOwe(path[0], g)
    ensures AllOwe(path[|path| - 1], g)
    decreases |path|
  {
    hide Snapshot.Sound, Firing, HeadDue, AllOwe;
    if |path| > 1 {
      PathRest(path, now);
      FiringAllOwe(path[0], path[1], now, g);
      PathAllOwe(path[1..], now, g);
    }
  }

  /** The ping is there as long as somebody is connected. */
  lemma PingThere(s: Snapshot, g: Addr)
    requires s.Sound() && AllOwe(s, g) && (g in s.states ==> s.states[g].payload == Ping && !s.states[g].closing)
    ensures g in s.states <==> s.connected > 0
  {
    hide Snapshot.Sound;
    Queued(s);
    SoundKeys(s);
    if s.connected > 0 {
      ConnectedLinks(s, 0);
    }
    if g in s.states {
      var o, x := OwnedLink(s, g);
      PingOwner(s, o, x);
    }
  }

  lemma PingOwner(s: Snapshot, o: nat, x: nat)
    requires s.Sound() && o in s.chains && x < |s.chains[o]| && s.chains[o][x].packet in s.states
    requires var a := s.states[s.chains[o][x].packet]; a.payload == Ping && !a.closing
    ensures s.connected > 0
  {
    hide QueueOk, TableOk, PacketsOk, SentLogged, Linked, Consecutive;
    assert Carries(o, |s.chains[o]|, x, s.states[s.chains[o][x].packet], s.history);
    var j :| 0 <= j < |s.sessions| && s.sessions[j].id == o;
    assert SessionOk(s.states, s.bodies, s.chains, {}, s.sessions[j], j < s.connected);
  }

  /** A ping has gone out. */
  lemma PingParted(s: Snapshot, u: Snapshot, now: Timespec, later: Timespec)
    requires s.Sound() && Pushes(s, u, Ping, later) && Sorted(s.queue, s.states, now)
    ensures var g := u.queue[|u.queue| - 1];
      && Parted(u.queue, u.states, |s.queue|, g, now, later) && AllOwe(u, g) && g in u.states
      && u.queue[..|s.queue|] == s.queue && !Fresh(u.queue, u.states, |s.queue|, g)
  {
    hide Snapshot.Sound, PushDatagrams, Pushed, OnlyNexts, Reached, Sorted, Parted, Fresh, AllOwe;
    var g := u.queue[|u.queue| - 1];
    AppendedParted(s.queue, s.states, g, now, later);
    PingOwed(s, u, g, later);
  }

  lemma AppendedParted(q: seq<Addr>, states: map<Addr, State>, g: Addr, now: Timespec, later: Timespec)
    requires Sorted(q, states, now) && g !in states
    ensures var states' := states[g := State(RESENDS, false, later, Ping)];
      && Parted(q + [g], states', |q|, g, now, later) && !Fresh(q + [g], states', |q|, g)
  {
    assert (q + [g])[..|q|] == q;
  }

  lemma PingOwed(s: Snapshot, u: Snapshot, g: Addr, later: Timespec)
    requires s.Sound() && Pushes(s, u, Ping, later) && g == u.queue[|u.queue| - 1]
    ensures AllOwe(u, g)
  {
    hide Snapshot.Sound, PushDatagrams, Pushed, OnlyNexts, Reached;
    ReachedKeys(s.connected, g, s.sessions, s.chains, u.sessions, u.chains);
    ReachedLength(s.connected, g, s.sessions, s.chains, u.sessions, u.chains);
    forall i | 0 <= i < u.connected && i < |u.sessions| && u.sessions[i].id in u.chains
      ensures exists x :: 0 <= x < |u.chains[u.sessions[i].id]| && u.chains[u.sessions[i].id][x].packet == g
    {
      ReachedSession(s.connected, g, s.sessions, s.chains, u.sessions, u.chains, i);
      ReachedChain(s.connected, g, s.sessions, s.chains, u.sessions, u.chains, i);
      var c := u.chains[u.sessions[i].id];
      assert c[|c| - 1] == Loc(g, i);
    }
  }

  // ---------------------------------------------------------------- what the timer does to the order

  /** The timer pings at `now`, sends packets again behind the ping, and somebody stays who owes it. */
  ghost predicate Overtaken(s: Snapshot, now: Timespec) {
    PingDue(s, now) && Restamps(s.queue, s.states, s.delay, now) && SomebodyKeepsUp(s, now)
  }

  /** The queue after the timer ran. */
  ghost predicate Outcome(s: Snapshot, t: Snapshot, m: nat, g: Addr, now: Timespec, later: Timespec) {
    && Parted(t.queue, t.states, m, g, now, later) && NothingDue(t, now)
    && (g in t.states && Fresh(t.queue, t.states, m, g) <==> Overtaken(s, now))
  }

  lemma PingedStart(s: Snapshot, u: Snapshot, now: Timespec, later: Timespec)
    requires s.Sound() && u.Sound() && PingDue(s, now) && Pinged(s, u, now, later) && Sorted(s.queue, s.states, now)
    requires Remaining(now, later, s.delay) > 0
    ensures u.queue != [] && u.delay == s.delay
    ensures var g, n := u.queue[|u.queue| - 1], |s.queue|;
      && Parted(u.queue, u.states, n, g, now, later) && AllOwe(u, g) && !Fresh(u.queue, u.states, n, g)
      && n <= |u.queue|
      && (Restamps(u.queue[..n], u.states, u.delay, now) <==> Restamps(s.queue, s.states, s.delay, now))
    ensures SomebodyKeepsUp(u, now) <==> SomebodyKeepsUp(s, now)
  {
    hide Snapshot.Sound, Sorted, Parted, Fresh, Restamps, Pushes, AllOwe, KeepsUp;
    var v := u.(pingStamp := s.pingStamp);
    PingParted(s, v, now, later);
    PingRestampsNothing(s, v, now, later);
    PingIsNoDebt(s, v, now, later);
    PingStampAside(u, u.queue[|u.queue| - 1], now, s.pingStamp);
  }

  lemma PingStampAside(s: Snapshot, g: Addr, now: Timespec, stamp: Timespec)
    ensures var t := s.(pingStamp := stamp);
      && (AllOwe(t, g) <==> AllOwe(s, g)) && (SomebodyKeepsUp(t, now) <==> SomebodyKeepsUp(s, now))
      && (t.Sound() <==> s.Sound())
  {
    hide QueueOk, PacketsOk, TableOk, SessionsOk, ChainKeysOk, Recorded;
  }

  lemma PingRestampsNothing(s: Snapshot, u: Snapshot, now: Timespec, later: Timespec)
    requires s.Sound() && Pushes(s, u, Ping, later)
    ensures u.delay == s.delay && |u.queue| == |s.queue| + 1
    ensures Restamps(u.queue[..|s.queue|], u.states, u.delay, now) <==> Restamps(s.queue, s.states, s.delay, now)
  {
    hide Snapshot.Sound, PushDatagrams, Pushed, OnlyNexts, Reached;
    SoundQueue(s);
    assert u.queue[..|s.queue|] == s.queue;
    SameRestamps(s.queue, s.states, u.states, s.delay, now);
  }

  lemma SameRestamps(q: seq<Addr>, states: map<Addr, State>, states': map<Addr, State>, delay: nat, now: Timespec)
    requires forall i :: 0 <= i < |q| ==> q[i] in states && q[i] in states' && states'[q[i]] == states[q[i]]
    ensures Restamps(q, states', delay, now) <==> Restamps(q, states, delay, now)
  {
  }

  /** Nobody falls behind because of the ping. */
  lemma PingIsNoDebt(s: Snapshot, u: Snapshot, now: Timespec, later: Timespec)
    requires s.Sound() && Pushes(s, u, Ping, later) && Remaining(now, later, s.delay) > 0
    ensures SomebodyKeepsUp(u, now) <==> SomebodyKeepsUp(s, now)
  {
    hide Snapshot.Sound, PushDatagrams, Pushed, OnlyNexts, Reached, Remaining;
    var g := u.queue[|u.queue| - 1];
    ReachedKeys(s.connected, g, s.sessions, s.chains, u.sessions, u.chains);
    ReachedLength(s.connected, g, s.sessions, s.chains, u.sessions, u.chains);
    forall i | 0 <= i < s.connected && i < |s.sessions|
      ensures u.sessions[i].id == s.sessions[i].id
      ensures KeepsUp(u, u.sessions[i].id, now) <==> KeepsUp(s, s.sessions[i].id, now)
    {
      ConnectedLinks(s, i);
      ReachedSession(s.connected, g, s.sessions, s.chains, u.sessions, u.chains, i);
      ReachedChain(s.connected, g, s.sessions, s.chains, u.sessions, u.chains, i);
      OneMoreLink(s, u, s.sessions[i].id, now, Loc(g, i));
    }
  }

  lemma OneMoreLink(s: Snapshot, u: Snapshot, o: nat, now: Timespec, l: Loc)
    requires o in s.chains && o in u.chains && u.chains[o] == s.chains[o] + [l] && u.delay == s.delay
    requires l.packet in u.states && !GivenUp(u.states[l.packet], u.delay, now)
    requires forall a :: a in s.states ==> a in u.states && u.states[a] == s.states[a]
    requires forall x :: 0 <= x < |s.chains[o]| ==> s.chains[o][x].packet in s.states
    ensures KeepsUp(u, o, now) <==> KeepsUp(s, o, now)
  {
    if KeepsUp(u, o, now) {
      forall x | 0 <= x < |s.chains[o]|
        ensures !GivenUp(s.states[s.chains[o][x].packet], s.delay, now)
      {
        assert u.chains[o][x] == s.chains[o][x];
      }
    }
  }

  lemma UnpingedStart(s: Snapshot, now: Timespec, later: Timespec)
    requires s.Sound() && Sorted(s.queue, s.states, now)
    ensures NULL !in s.states && Parted(s.queue, s.states, |s.queue|, NULL, now, later)
    ensures s.queue[..|s.queue|] == s.queue
  {
    hide SessionsOk, ChainKeysOk, TableOk, RefsOk, Recorded, OrderOk;
    assert s.queue[..|s.queue|] == s.queue;
  }

  lemma WhatTheTimerDoes(s: Snapshot, t: Snapshot, now: Timespec, later: Timespec, path: seq<Snapshot>)
    returns (m: nat, g: Addr)
    requires s.Sound() && TimerPath(path, s, t, now, later) && Sorted(s.queue, s.states, now) && IsTime(now)
    requires Remaining(now, later, s.delay) > 0
    ensures Outcome(s, t, m, g, now, later)
  {
    hide Snapshot.Sound, Firing, HeadDue, Sorted, Parted, Fresh, Restamps, NothingDue, Pushes, AllOwe, KeepsUp;
    hide SomebodyKeepsUp, Pinged;
    var u := path[0];
    if PingDue(s, now) {
      PingedStart(s, u, now, later);
      g := u.queue[|u.queue| - 1];
      m := PathParted(path, |s.queue|, g, now, later);
      PathAllOwe(path, now, g);
      PathKeepsUp(path, now);
      PartedPing(t.queue, t.states, m, g, now, later);
      PingThere(t, g);
      SomebodyIsLeft(t, now);
    } else {
      NotPinged(s, u, now, later);
      UnpingedStart(s, now, later);
      g := NULL;
      m := PathParted(path, |s.queue|, g, now, later);
      NullFree(t);
    }
  }

  lemma NotPinged(s: Snapshot, u: Snapshot, now: Timespec, later: Timespec)
    requires Pinged(s, u, now, later) && !PingDue(s, now)
    ensures u == s
  {
  }

  lemma PartedPing(q: seq<Addr>, states: map<Addr, State>, m: nat, g: Addr, now: Timespec, later: Timespec)
    requires Parted(q, states, m, g, now, later)
    ensures g in states ==> states[g] == State(RESENDS, false, later, Ping)
  {
  }

  /** Not in the order of the stamps any more: something stamped anew is behind the ping. */
  lemma PartedSorted(q: seq<Addr>, states: map<Addr, State>, m: nat, g: Addr, now: Timespec, later: Timespec)
    requires Parted(q, states, m, g, now, later) && IsTime(now) && IsTime(later) && Before(now, later)
    ensures Sorted(q, states, later) <==> !(g in states && Fresh(q, states, m, g) && later != now)
  {
    assert forall i :: 0 <= i < m ==> q[i] == q[..m][i];
    if g in states && Fresh(q, states, m, g) {
      assert Before(states[q[m]].stamp, states[q[m + 1]].stamp) <==> later == now;
    }
  }

  lemma PartedInOrder(q: seq<Addr>, states: map<Addr, State>, m: nat, g: Addr, now: Timespec, later: Timespec,
                      at: Timespec)
    requires Parted(q, states, m, g, now, later) && IsTime(now) && IsTime(later) && IsTime(at) && Before(now, later)
    ensures InOrder(q, states, at) <==>
      !(g in states && Fresh(q, states, m, g) && Elapsed(at, later) < Elapsed(at, now))
  {
    hide Elapsed;
    assert forall i :: 0 <= i < m ==> q[i] == q[..m][i];
    ElapsedLess(at, now, later);
    forall i | 0 < i < |q| && !(i == m + 1 && g in states)
      ensures Elapsed(at, states[q[i]].stamp) <= Elapsed(at, states[q[i - 1]].stamp)
    {
      assert Before(states[q[i - 1]].stamp, states[q[i]].stamp);
      ElapsedLess(at, states[q[i - 1]].stamp, states[q[i]].stamp);
    }
    if g in states && Fresh(q, states, m, g) {
      var i := m + 1;
      assert 0 < i < |q| && q[i - 1] == g && q[i] in states && states[q[i]].stamp == now;
    }
  }

  /** A run of the timer on a sorted queue leaves it in the order that the check at the time `at` demands, unless
      pings went out and were overtaken, and were queued a millisecond later than the timer ran. */
  lemma TimerKeepsOrderExactlyWhen(s: Snapshot, t: Snapshot, now: Timespec, later: Timespec, at: Timespec)
    requires s.Sound() && t.Sound() && Effect(TimerRan(now, later), s, t) && Sorted(s.queue, s.states, now)
    requires IsTime(now) && IsTime(later) && IsTime(at) && Before(now, later) && Recent(now, later)
    ensures InOrder(t.queue, t.states, at) <==> !(Overtaken(s, now) && Elapsed(at, later) < Elapsed(at, now))
    ensures Sorted(t.queue, t.states, later) <==> !(Overtaken(s, now) && later != now)
  {
    hide Snapshot.Sound, Firing, HeadDue, Sorted, Parted, Fresh, Pushes, Overtaken, InOrder, Elapsed;
    var path :| TimerPath(path, s, t, now, later);
    SoundDelay(s);
    StillLeft(now, later, s.delay);
    var m, g := WhatTheTimerDoes(s, t, now, later, path);
    PartedSorted(t.queue, t.states, m, g, now, later);
    PartedInOrder(t.queue, t.states, m, g, now, later, at);
  }

  lemma StillLeft(now: Timespec, later: Timespec, delay: nat)
    requires IsTime(now) && IsTime(later) && Before(now, later) && Recent(now, later) && 0 < delay < ID_COUNT
    ensures Remaining(now, later, delay) > 0
  {
    ElapsedLess(now, now, later);
  }
}
