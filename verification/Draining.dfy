/** What one firing of the retransmit timer does to the queue, and why it cannot go on for ever. */
module Draining {
  import opened ProxyState
  import opened QueueLemmas

  /** The three things that can happen to the packet at the head of the queue: it is sent again and
      rotated; or, when it has no resends left, its sessions are dropped and it becomes a closing
      request; or, when it already was one, it is released together with its sessions. */
  ghost predicate Fired(q: seq<Addr>, states: map<Addr, State>, now: Timespec, q': seq<Addr>,
                        states': map<Addr, State>) {
    && q != [] && q[0] in states
    && var p := q[0];
       var s := states[p];
       if s.resends > 0 then
         q' == q[1..] + [p] && states' == states[p := s.(resends := s.resends - 1, stamp := now)]
       else if s.closing then
         q' == q[1..] && states' == states - {p}
       else
         && p in states' && states'[p] == State(RESENDS_CLOSING, true, now, CloseRequest)
         && q' == Kept(q[1..], states'.Keys) + [p]
         && forall a :: a in states' && a != p ==> a in states && states'[a] == states[a]
  }

  lemma FiredAgain(q: seq<Addr>, states: map<Addr, State>, now: Timespec, q': seq<Addr>, states': map<Addr, State>)
    requires Fired(q, states, now, q', states') && states[q[0]].resends > 0
    ensures q' != [] && q[0] in states' && states' == states[q[0] := states'[q[0]]]
    ensures states'[q[0]].closing == states[q[0]].closing && states'[q[0]].payload == states[q[0]].payload
  {
  }

  lemma FiredLast(q: seq<Addr>, states: map<Addr, State>, now: Timespec, q': seq<Addr>, states': map<Addr, State>)
    requires Fired(q, states, now, q', states') && states[q[0]].resends == 0 && states[q[0]].closing
    ensures states' == states - {q[0]}
  {
  }

  lemma FiredClosing(q: seq<Addr>, states: map<Addr, State>, now: Timespec, q': seq<Addr>, states': map<Addr, State>)
    requires Fired(q, states, now, q', states') && states[q[0]].resends == 0 && !states[q[0]].closing
    ensures q' != [] && q[0] in states' && states'[q[0]].closing && states'[q[0]].payload == CloseRequest
    ensures forall a :: a in states' && a != q[0] ==> a in states && states'[a] == states[a]
  {
  }

  /** Closing requests count their resends and their release; ordinary packets also count the resends
      of the closing request they may turn into. */
  function Weight(s: State): nat {
    if s.closing then s.resends + 1 else s.resends + 3
  }

  /** A packet whose retransmit delay has run out. */
  function Expired(now: Timespec, delay: nat): State -> nat {
    (s: State) => if Remaining(now, s.stamp, delay) == 0 then 1 else 0
  }

  /** A reading of the clock. */
  predicate IsTime(t: Timespec) {
    0 <= t.nsec < 1_000_000_000
  }

  function TruncatedDiv(a: int, b: int): int
    requires b > 0
  {
    if a >= 0 then a / b else -((-a) / b)
  }

  /** Milliseconds from `since` to `now`; the division truncates towards zero. */
  function Elapsed(now: Timespec, since: Timespec): int {
    (now.sec - since.sec) * 1000 + TruncatedDiv(now.nsec - since.nsec, 1000000)
  }

  /** Milliseconds left of a delay that started at `since`, as an unsigned 32-bit number. */
  function Remaining(now: Timespec, since: Timespec, delay: nat): nat {
    var delta := Elapsed(now, since);
    if delta > delay then 0 else (delay - delta) % 0x1_0000_0000
  }

  ghost predicate QueueIn(q: seq<Addr>, states: map<Addr, State>) {
    Distinct(q) && forall i :: 0 <= i < |q| ==> q[i] in states
  }

  /** For any measure: what a firing takes away is what the head contributed, apart from what is
      flushed; what it adds is what the head contributes afterwards. */
  lemma FiredTotal(q: seq<Addr>, states: map<Addr, State>, now: Timespec, q': seq<Addr>, states': map<Addr, State>,
                   m: State -> nat)
    requires QueueIn(q, states) && Fired(q, states, now, q', states')
    ensures var added := if q[0] in states' then m(states'[q[0]]) else 0;
      Total(q', states', m) <= Total(q, states, m) - m(states[q[0]]) + added
  {
    var p := q[0];
    var rest := q[1..];
    if p in states' {
      var kept := if states[p].resends > 0 then rest else Kept(rest, states'.Keys);
      KeptMembers(rest, states'.Keys);
      forall i | 0 <= i < |kept|
        ensures kept[i] in rest && kept[i] != p
      {
        assert kept[i] in kept;
      }
      TotalAppend(kept, p, states', m);
      TotalSame(kept, states, states', m);
      TotalKept(rest, states'.Keys, states, m);
    } else {
      TotalSame(rest, states, states', m);
    }
  }

  /** After a firing the queue lists allocated packets again, each once. */
  lemma FiredQueueIn(q: seq<Addr>, states: map<Addr, State>, now: Timespec, q': seq<Addr>, states': map<Addr, State>)
    requires QueueIn(q, states) && Fired(q, states, now, q', states')
    ensures QueueIn(q', states')
  {
    if states[q[0]].resends == 0 && !states[q[0]].closing {
      var rest := q[1..];
      KeptMembers(rest, states'.Keys);
      KeptDistinct(rest, states'.Keys);
      forall i | 0 <= i < |Kept(rest, states'.Keys)|
        ensures Kept(rest, states'.Keys)[i] != q[0] && Kept(rest, states'.Keys)[i] in states'
      {
        assert Kept(rest, states'.Keys)[i] in Kept(rest, states'.Keys);
      }
    }
  }

  /** Every firing makes the queue lighter. */
  lemma WeightDecreases(q: seq<Addr>, states: map<Addr, State>, now: Timespec, q': seq<Addr>, states': map<Addr, State>)
    requires QueueIn(q, states) && Fired(q, states, now, q', states')
    ensures Total(q', states', Weight) < Total(q, states, Weight)
  {
    FiredTotal(q, states, now, q', states', Weight);
  }

  /** A firing for an expired head leaves fewer packets that have expired at that time. */
  lemma ExpiredDecreases(q: seq<Addr>, states: map<Addr, State>, now: Timespec, q': seq<Addr>,
                         states': map<Addr, State>, delay: nat)
    requires QueueIn(q, states) && Fired(q, states, now, q', states')
    requires 0 < delay < 0x1_0000_0000 && Remaining(now, states[q[0]].stamp, delay) == 0
    ensures Total(q', states', Expired(now, delay)) < Total(q, states, Expired(now, delay))
  {
    FiredTotal(q, states, now, q', states', Expired(now, delay));
  }

  /** Some packet in the queue has not run out of time yet. */
  ghost predicate Waiting(q: seq<Addr>, states: map<Addr, State>, now: Timespec, delay: nat) {
    exists i :: 0 <= i < |q| && q[i] in states && Remaining(now, states[q[i]].stamp, delay) > 0
  }

  /** Firing expired heads never uses up the packets that are still waiting. */
  lemma WaitingKept(q: seq<Addr>, states: map<Addr, State>, now: Timespec, q': seq<Addr>, states': map<Addr, State>,
                    delay: nat)
    requires QueueIn(q, states) && Fired(q, states, now, q', states') && Waiting(q, states, now, delay)
    requires 0 < delay < 0x1_0000_0000 && Remaining(now, states[q[0]].stamp, delay) == 0
    ensures Waiting(q', states', now, delay)
  {
    var p := q[0];
    if p in states' {
      assert q'[|q'| - 1] == p && states'[p].stamp == now;
    } else {
      var i :| 0 <= i < |q| && q[i] in states && Remaining(now, states[q[i]].stamp, delay) > 0;
      assert q'[i - 1] == q[i] && q[i] in states';
    }
  }
}
