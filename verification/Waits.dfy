/** How long the timer says there is to wait, against the clock. */
module Waits {
  import opened Basics
  import opened ProxyState
  import opened Draining
  import opened JoinLemmas
  import opened SessionLemmas
  import opened History
  import opened ProxyServer
  import opened Effects
  import opened SoundStates

  const SECOND := 1_000_000_000
  const MILLISECOND := 1_000_000

  /** `ms` milliseconds later. */
  function After(now: Timespec, ms: nat): Timespec {
    var nsec := now.nsec + ms % 1000 * MILLISECOND;
    if nsec < SECOND then Timespec(now.sec + ms / 1000, nsec) else Timespec(now.sec + ms / 1000 + 1, nsec - SECOND)
  }

  /** The fractions of a millisecond are cut off towards zero, and so in another direction once the difference of
      the nanoseconds changes its sign from `x` to `y`: a millisecond is lost or gained. */
  function Rounding(x: int, y: int): int {
    if y % MILLISECOND == 0 then 0
    else if x < 0 <= y then -1
    else if y < 0 <= x then 1
    else 0
  }

  lemma WholePart(a: int)
    ensures var q := a / MILLISECOND; var r := a % MILLISECOND;
      a == q * MILLISECOND + r && TruncatedDiv(a, MILLISECOND) == if a >= 0 || r == 0 then q else q + 1
  {
    var q := (-a) / MILLISECOND;
    assert -a == q * MILLISECOND + (-a) % MILLISECOND;
  }

  lemma ElapsedLater(now: Timespec, ms: nat, stamp: Timespec)
    requires IsTime(now) && IsTime(stamp)
    ensures IsTime(After(now, ms))
    ensures Elapsed(After(now, ms), stamp)
      == Elapsed(now, stamp) + ms + Rounding(now.nsec - stamp.nsec, After(now, ms).nsec - stamp.nsec)
  {
    var at := After(now, ms);
    var x, y := now.nsec - stamp.nsec, at.nsec - stamp.nsec;
    WholePart(x);
    WholePart(y);
    assert y == x + ms % 1000 * MILLISECOND || y == x + (ms % 1000 - 1000) * MILLISECOND;
    assert y % MILLISECOND == x % MILLISECOND;
    assert y / MILLISECOND == x / MILLISECOND + ms % 1000 || y / MILLISECOND == x / MILLISECOND + ms % 1000 - 1000;
  }

  /** What is left of a delay and what has gone by make up the delay, unless the stamp lies some seven weeks ahead. */
  lemma RemainingIs(now: Timespec, since: Timespec, delay: nat)
    ensures Elapsed(now, since) > delay ==> Remaining(now, since, delay) == 0
    ensures Elapsed(now, since) <= delay ==>
      (Remaining(now, since, delay) + Elapsed(now, since) == delay <==> delay - Elapsed(now, since) < 0x1_0000_0000)
  {
  }

  /** A timer that has not run out and whose stamp does not lie too far ahead. */
  predicate Running(now: Timespec, stamp: Timespec, delay: nat) {
    IsTime(stamp) && 0 < delay - Elapsed(now, stamp) < 0x1_0000_0000
  }

  /** When such a timer runs out: what is left later, give or take the rounding. */
  lemma RunsOut(now: Timespec, stamp: Timespec, delay: nat, ms: nat)
    requires IsTime(now) && Running(now, stamp, delay)
    ensures Remaining(After(now, ms), stamp, delay) == 0 <==>
      Remaining(now, stamp, delay) <= ms + Rounding(now.nsec - stamp.nsec, After(now, ms).nsec - stamp.nsec)
  {
    ElapsedLater(now, ms, stamp);
    hide Elapsed, Rounding;
    RemainingIs(now, stamp, delay);
    RoundingSmall(now, ms, stamp);
  }

  lemma RoundingSmall(now: Timespec, ms: nat, stamp: Timespec)
    requires IsTime(now)
    ensures var r := Rounding(now.nsec - stamp.nsec, After(now, ms).nsec - stamp.nsec);
      -1 <= r <= 1 && (ms == 0 ==> r == 0)
    ensures Whole(now, stamp) ==> Rounding(now.nsec - stamp.nsec, After(now, ms).nsec - stamp.nsec) == 0
  {
  }

  /** The stamp was taken at the same fraction of a millisecond. */
  predicate Whole(now: Timespec, stamp: Timespec) {
    (now.nsec - stamp.nsec) % MILLISECOND == 0
  }

  // ---------------------------------------------------------------- the server's two timers

  /** The timer would do something: ping, or fire for the head of the queue. */
  ghost predicate SomethingDue(s: Snapshot, now: Timespec) {
    HeadDue(s, now) || PingDue(s, now)
  }

  /** The stamps that the timers run from are readings of the clock, and none is weeks ahead. */
  ghost predicate Clocked(s: Snapshot, now: Timespec) {
    && IsTime(now)
    && (s.queue != [] && s.queue[0] in s.states ==> Running(now, s.states[s.queue[0]].stamp, s.delay))
    && (s.connected > 0 ==> Running(now, s.pingStamp, s.interval))
  }

  /** They were taken at the same fraction of a millisecond. */
  ghost predicate AllWhole(s: Snapshot, now: Timespec) {
    && (s.queue != [] && s.queue[0] in s.states ==> Whole(now, s.states[s.queue[0]].stamp))
    && (s.connected > 0 ==> Whole(now, s.pingStamp))
  }

  /** The timer ran at `now`, led from `s` to `t` and asks to be run again in `d` milliseconds. If nothing happens
      in between, something is due then, and nothing is due any earlier; where stamps are not whole milliseconds
      apart either may be off by one. Two things are set aside: when everybody was dropped who would have been
      pinged, nothing need be due; and the interval that a ping has just started is not looked at. */
  ghost predicate Awaits(s: Snapshot, t: Snapshot, now: Timespec, d: nat) {
    var slack := if AllWhole(t, now) then 0 else 1;
    && (t.connected > 0 || d == HeadLeft(t, now) ==> SomethingDue(t, After(now, d + slack)))
    && forall early: nat :: early + slack < d && (PingDue(s, now) ==> early + slack < t.interval) ==>
         !SomethingDue(t, After(now, early))
  }

  /** What is due at any time after that, timer by timer. */
  lemma DueLater(t: Snapshot, now: Timespec, ms: nat)
    requires t.Sound() && Clocked(t, now)
    ensures HeadDue(t, After(now, ms)) <==>
      && t.queue != [] && t.queue[0] in t.states
      && var stamp := t.states[t.queue[0]].stamp;
         HeadLeft(t, now) <= ms + Rounding(now.nsec - stamp.nsec, After(now, ms).nsec - stamp.nsec)
    ensures PingDue(t, After(now, ms)) <==>
      && t.connected > 0
      && Remaining(now, t.pingStamp, t.interval)
           <= ms + Rounding(now.nsec - t.pingStamp.nsec, After(now, ms).nsec - t.pingStamp.nsec)
  {
    hide Snapshot.Sound, Remaining, Rounding, Running, Elapsed;
    if t.queue != [] && t.queue[0] in t.states {
      RunsOut(now, t.states[t.queue[0]].stamp, t.delay, ms);
    }
    if t.connected > 0 {
      RunsOut(now, t.pingStamp, t.interval, ms);
    }
  }

  lemma DueAbout(t: Snapshot, now: Timespec, ms: nat)
    requires t.Sound() && Clocked(t, now)
    ensures var slack := if AllWhole(t, now) then 0 else 1; var left := HeadLeft(t, now);
      && (HeadDue(t, After(now, ms)) ==> left <= ms + slack)
      && (left != NEVER && left + slack <= ms ==> HeadDue(t, After(now, ms)))
    ensures var slack := if AllWhole(t, now) then 0 else 1; var left := Remaining(now, t.pingStamp, t.interval);
      && (PingDue(t, After(now, ms)) ==> t.connected > 0 && left <= ms + slack)
      && (t.connected > 0 && left + slack <= ms ==> PingDue(t, After(now, ms)))
  {
    hide Snapshot.Sound, Elapsed, Remaining, Rounding, Running, HeadDue, PingDue, Whole;
    DueLater(t, now, ms);
    if t.queue != [] && t.queue[0] in t.states {
      RoundingSmall(now, ms, t.states[t.queue[0]].stamp);
    }
    RoundingSmall(now, ms, t.pingStamp);
  }

  lemma PingWait(s: Snapshot, t: Snapshot, now: Timespec)
    requires t.Sound() && t.interval == s.interval && (t.connected > 0 ==> s.connected > 0)
    requires t.pingStamp == if PingDue(s, now) then now else s.pingStamp
    ensures PingDue(s, now) ==> PingLeft(s, now) == NEVER && Remaining(now, t.pingStamp, t.interval) == t.interval
    ensures !PingDue(s, now) && t.connected > 0 ==> Remaining(now, t.pingStamp, t.interval) == PingLeft(s, now)
  {
    hide QueueOk, PacketsOk, TableOk, SessionsOk, ChainKeysOk, Recorded;
  }

  /** The state the timer leaves: the ping timer is the old one, or has just been started. */
  lemma WaitIsRight(s: Snapshot, t: Snapshot, now: Timespec, d: nat)
    requires t.Sound() && Clocked(t, now) && t.interval == s.interval && (t.connected > 0 ==> s.connected > 0)
    requires t.pingStamp == (if PingDue(s, now) then now else s.pingStamp)
    requires d == Min(PingLeft(s, now), HeadLeft(t, now)) && d < 0x7fff_ffff
    ensures Awaits(s, t, now, d)
  {
    hide Snapshot.Sound, Elapsed, HeadDue, PingDue;
    PingWait(s, t, now);
    var slack := if AllWhole(t, now) then 0 else 1;
    forall ms: nat
      ensures HeadDue(t, After(now, ms)) ==> HeadLeft(t, now) <= ms + slack
      ensures PingDue(t, After(now, ms)) ==> t.connected > 0 && Remaining(now, t.pingStamp, t.interval) <= ms + slack
    {
      DueAbout(t, now, ms);
    }
    DueAbout(t, now, d + slack);
  }

  /** Whoever is connected after the timer ran was before. */
  lemma FiringConnected(s: Snapshot, t: Snapshot, now: Timespec)
    requires t.Sound() && Firing(s, t, now)
    ensures (t.connected > 0 ==> s.connected > 0) && t.interval == s.interval && t.pingStamp == s.pingStamp
  {
    hide Snapshot.Sound, Fired, Handled, Dealt;
    Queued(t);
    if t.connected > 0 {
      assert GoesBack(t.sessions[0], true, s.sessions, s.connected);
    }
  }

  lemma {:induction false} PathConnected(path: seq<Snapshot>, now: Timespec)
    requires FiringPath(path, now)
    ensures var s, t := path[0], path[|path| - 1];
      (t.connected > 0 ==> s.connected > 0) && t.interval == s.interval && t.pingStamp == s.pingStamp
  {
    hide Snapshot.Sound, Firing, HeadDue;
    if |path| > 1 {
      var n := |path| - 1;
      PathConnected(path[..n], now);
      assert path[..n][n - 1] == path[n - 1];
      assert HeadDue(path[n - 1], now) && Firing(path[n - 1], path[n - 1 + 1], now);
      FiringConnected(path[n - 1], path[n], now);
    }
  }

  lemma PingedTimers(s: Snapshot, u: Snapshot, now: Timespec, later: Timespec)
    requires Pinged(s, u, now, later)
    ensures u.interval == s.interval && u.connected == s.connected
    ensures u.pingStamp == if PingDue(s, now) then now else s.pingStamp
  {
    hide Reached, Pushed, PushDatagrams, OnlyNexts, PingDue;
  }

  /** The wait is right whatever the timer did. */
  lemma TimerAwaits(path: seq<Snapshot>, s: Snapshot, t: Snapshot, now: Timespec, later: Timespec)
    requires TimerPath(path, s, t, now, later)
    ensures var d := Min(PingLeft(s, now), HeadLeft(t, now));
      d < 0x7fff_ffff && Clocked(t, now) ==> Awaits(s, t, now, d)
  {
    hide Snapshot.Sound, Firing, HeadDue, Clocked, Awaits, Pushes;
    PathConnected(path, now);
    PingedTimers(s, path[0], now, later);
    assert path[|path| - 1].Sound();
    if Clocked(t, now) && Min(PingLeft(s, now), HeadLeft(t, now)) < 0x7fff_ffff {
      WaitIsRight(s, t, now, Min(PingLeft(s, now), HeadLeft(t, now)));
    }
  }

  // ---------------------------------------------------------------- off by one

  /** A packet stamped half a millisecond ahead of the clock's fraction is not due when the wait of a millisecond
      is over: there is another millisecond to wait. */
  lemma OneMillisecondMore()
    ensures var now, stamp := Timespec(1, 200_000), Timespec(0, 700_000);
      Remaining(now, stamp, 1001) == 1 && Remaining(After(now, 1), stamp, 1001) == 1
  {
  }

  /** And one that is waited for is due a millisecond early. */
  lemma OneMillisecondLess()
    ensures var now, stamp := Timespec(0, 999_700_000), Timespec(0, 900_200_000);
      Remaining(now, stamp, 101) == 2 && Remaining(After(now, 1), stamp, 101) == 0
  {
  }
}
