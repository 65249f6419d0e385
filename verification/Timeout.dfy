/** The timer of the proxy's event loop. */
module Timeout {
  import opened Basics
  import opened ProxyState
  import opened ProxyServer
  import opened Draining
  import opened Effects
  import opened Waits
  import opened History
  import opened JoinLemmas
  import opened SessionLemmas

  function Signed(t: nat): int {
    if t < 0x8000_0000 then t else t - 0x1_0000_0000
  }

  /** The clock has not been set back by weeks since the stamp was taken. */
  predicate Recent(now: Timespec, stamp: Timespec) {
    Elapsed(now, stamp) > -0x7ff0_0000
  }

  ghost predicate AllRecent(now: Timespec, states: map<Addr, State>) {
    forall a :: a in states ==> Recent(now, states[a].stamp)
  }

  /** `later` is read from the clock after `now`. */
  ghost predicate ClockOk(server: Server, now: Timespec, later: Timespec)
    reads server
  {
    && AllRecent(now, server.states) && Recent(now, server.pingStamp)
    && Recent(now, later) && Elapsed(now, later) <= 0
  }

  lemma FiredRecent(q: seq<Addr>, states: map<Addr, State>, now: Timespec, q': seq<Addr>, states': map<Addr, State>)
    requires Fired(q, states, now, q', states') && AllRecent(now, states)
    ensures AllRecent(now, states')
  {
  }

  lemma RecentBound(now: Timespec, stamp: Timespec, delay: nat)
    requires Recent(now, stamp) && delay < ID_COUNT
    ensures Remaining(now, stamp, delay) < 0x7fff_ffff
  {
  }

  /** Packets whose time has not run out keep their state, unless they are gone. */
  ghost predicate Untouched(states0: map<Addr, State>, states1: map<Addr, State>, now: Timespec, delay: nat) {
    forall a :: a in states0 && a in states1 && Remaining(now, states0[a].stamp, delay) > 0 ==> states1[a] == states0[a]
  }

  /** Fires every retransmit timer that has run out at `now` and returns what is left of the next one,
      if that is less than `limit`. The packets in the queue that are expired at `now` get fewer with
      every firing, so the loop ends. */
  method FireExpired(server: Server, now: Timespec, limit: nat, ghost waiting: bool)
    returns (timeout: nat, ghost path: seq<Snapshot>)
    requires server.Valid() && 0 < limit <= NEVER
    requires waiting ==> Waiting(server.queue, server.states, now, server.retransmitDelay)
    modifies server, server.lookup
    ensures server.Valid()
    ensures FiringPath(path, now) && path[0] == old(Now(server)) && path[|path| - 1] == Now(server)
    ensures !HeadDue(Now(server), now)
    ensures timeout == if HeadLeft(Now(server), now) < limit then HeadLeft(Now(server), now) else limit
    ensures timeout > 0 && HeadLeft(Now(server), now) > 0
    ensures HeadLeft(old(Now(server)), now) > 0 ==> unchanged(server) && unchanged(server.lookup)
    ensures server.pingStamp == old(server.pingStamp) && server.states.Keys <= old(server.states.Keys)
    ensures Untouched(old(server.states), server.states, now, server.retransmitDelay)
    ensures old(AllRecent(now, server.states)) ==> AllRecent(now, server.states)
    ensures waiting ==> server.queue != []
  {
    hide Server.Inv, Server.Logged, Fired, Total, AllRecent, Waiting, Remaining, QueueIn, Untouched, Firing, Now;
    hide Snapshot.Sound;
    var delay := server.retransmitDelay;
    timeout, path := limit, [Now(server)];
    ValidIsSound(server);
    server.QueueAllocated();
    NothingTouched(server.states, now, delay);
    while server.head != NULL
      invariant server.Valid() && server.pingStamp == old(server.pingStamp)
      invariant FiringPath(path, now) && path[0] == old(Now(server)) && path[|path| - 1] == Now(server)
      invariant server.head == NULL <==> server.queue == []
      invariant old(AllRecent(now, server.states)) ==> AllRecent(now, server.states)
      invariant waiting ==> Waiting(server.queue, server.states, now, delay)
      invariant HeadLeft(old(Now(server)), now) > 0 ==> unchanged(server) && unchanged(server.lookup)
      invariant server.states.Keys <= old(server.states.Keys)
      invariant Untouched(old(server.states), server.states, now, delay)
      decreases Total(server.queue, server.states, Expired(now, delay))
    {
      server.QueueAllocated();
      var retx := Remaining(now, server.states[server.head].stamp, delay);
      DueAt(server, now);
      if retx > 0 {
        if retx < timeout {
          timeout := retx;
        }
        return;
      }
      ghost var queue0, states0, s := server.queue, server.states, Now(server);
      Fire(server, now);
      server.QueueAllocated();
      FiredHere(queue0, states0, now, server);
      StillUntouched(old(server.states), queue0, states0, now, server.queue, server.states, delay);
      ValidIsSound(server);
      path := path + [Now(server)];
    }
    DueAt(server, now);
    NobodyWaits(server.states, now, delay);
  }

  lemma DueAt(server: Server, now: Timespec)
    requires server.head == NULL <==> server.queue == []
    requires server.queue != [] ==> server.head == server.queue[0] && server.head in server.states
    ensures HeadLeft(Now(server), now) ==
      if server.queue == [] then NEVER
      else Remaining(now, server.states[server.head].stamp, server.retransmitDelay)
    ensures HeadDue(Now(server), now) <==>
      server.queue != [] && Remaining(now, server.states[server.head].stamp, server.retransmitDelay) == 0
  {
  }

  /** Handles the packet at the head of the queue. */
  method Fire(server: Server, now: Timespec)
    requires server.Valid() && server.queue != []
    modifies server, server.lookup
    ensures server.Valid() && Firing(old(Now(server)), Now(server), now)
    ensures Fired(old(server.queue), old(server.states), now, server.queue, server.states)
    ensures Outlived(old(server.chains), server.chains) && server.pingStamp == old(server.pingStamp)
  {
    hide Server.Inv, Server.Logged, Fired, Handled, Descends, Outlived, FirstForOwners;
    server.QueueAllocated();
    server.Retransmit(now);
  }

  lemma NobodyWaits(states: map<Addr, State>, now: Timespec, delay: nat)
    ensures !Waiting([], states, now, delay)
  {
  }

  lemma NothingTouched(states: map<Addr, State>, now: Timespec, delay: nat)
    ensures Untouched(states, states, now, delay)
  {
  }

  lemma StillUntouched(states0: map<Addr, State>, q: seq<Addr>, states: map<Addr, State>, now: Timespec,
                       q': seq<Addr>, states': map<Addr, State>, delay: nat)
    requires Untouched(states0, states, now, delay) && states.Keys <= states0.Keys
    requires Fired(q, states, now, q', states') && Remaining(now, states[q[0]].stamp, delay) == 0
    ensures Untouched(states0, states', now, delay) && states'.Keys <= states0.Keys
  {
  }

  lemma FiredHere(queue0: seq<Addr>, states0: map<Addr, State>, now: Timespec, server: Server)
    requires 0 < server.retransmitDelay < ID_COUNT && QueueIn(queue0, states0)
    requires Fired(queue0, states0, now, server.queue, server.states)
    requires Remaining(now, states0[queue0[0]].stamp, server.retransmitDelay) == 0
    ensures AllRecent(now, states0) ==> AllRecent(now, server.states)
    ensures Waiting(queue0, states0, now, server.retransmitDelay) ==>
      Waiting(server.queue, server.states, now, server.retransmitDelay)
    ensures Total(server.queue, server.states, Expired(now, server.retransmitDelay))
      < Total(queue0, states0, Expired(now, server.retransmitDelay))
  {
    ExpiredDecreases(queue0, states0, now, server.queue, server.states, server.retransmitDelay);
    if AllRecent(now, states0) {
      FiredRecent(queue0, states0, now, server.queue, server.states);
    }
    if Waiting(queue0, states0, now, server.retransmitDelay) {
      WaitingKept(queue0, states0, now, server.queue, server.states, server.retransmitDelay);
    }
  }

  /** Pings all connected sessions if the ping timer runs and has run out, otherwise returns what is
      left of it. */
  method PingWhenDue(server: Server, now: Timespec, later: Timespec) returns (left: nat)
    requires server.Valid()
    modifies server
    ensures server.Valid() && Pinged(old(Now(server)), Now(server), now, later)
    ensures left == PingLeft(old(Now(server)), now) && 0 < left <= NEVER
    ensures old(ClockOk(server, now, later)) ==> AllRecent(now, server.states)
    ensures Untouched(old(server.states), server.states, now, server.retransmitDelay)
    ensures Extends(old(server.states), server.states)
    ensures old(ClockOk(server, now, later)) && old(server.connected > 0) && left == NEVER ==>
      Waiting(server.queue, server.states, now, server.retransmitDelay)
  {
    hide Server.Inv, Server.Logged, Waiting, Pushes;
    server.QueueAllocated();
    left := NEVER;
    if server.connected > 0 {
      var ping := Remaining(now, server.pingStamp, server.pingInterval);
      if ping == 0 {
        ghost var states0, clockOk := server.states, ClockOk(server, now, later);
        ghost var p := Ping(server, now, later);
        if clockOk {
          PingWaits(server, p, states0, now, later);
        }
      } else {
        left := ping;
        if Recent(now, server.pingStamp) { RecentBound(now, server.pingStamp, server.pingInterval); }
      }
    }
  }

  method Ping(server: Server, now: Timespec, later: Timespec) returns (ghost p: Addr)
    requires server.Valid() && server.connected > 0
    modifies server
    ensures server.Valid() && server.pingStamp == now
    ensures Pushes(old(Now(server)), Now(server).(pingStamp := old(server.pingStamp)), Payload.Ping, later)
    ensures p !in old(server.states)
    ensures server.states == old(server.states)[p := State(RESENDS, false, later, Payload.Ping)]
    ensures server.queue != [] && server.queue[|server.queue| - 1] == p
    ensures 0 < server.retransmitDelay < ID_COUNT
  {
    hide Server.Inv, Server.Logged, Reached, Pushed, PushDatagrams;
    server.LengthOfTable();
    p := server.BroadcastPing(now, later);
    server.QueueAllocated();
  }

  lemma PingWaits(server: Server, p: Addr, states0: map<Addr, State>, now: Timespec, later: Timespec)
    requires server.states == states0[p := State(RESENDS, false, later, Payload.Ping)] && AllRecent(now, states0)
    requires server.queue != [] && server.queue[|server.queue| - 1] == p
    requires Recent(now, later) && Elapsed(now, later) <= 0 && 0 < server.retransmitDelay < ID_COUNT
    ensures AllRecent(now, server.states)
    ensures Waiting(server.queue, server.states, now, server.retransmitDelay)
  {
  }

  /** Pings if it is time to, fires every retransmit timer that has run out, and returns how long to
      wait for the next timer, or -1 if there is none. `fits` is the outcome of the assertion that the
      result fits a signed number. */
  method TimeoutNext(server: Server, now: Timespec, later: Timespec)
    returns (timeout: int, fits: bool, ghost path: seq<Snapshot>)
    requires server.Valid()
    modifies server, server.lookup
    ensures server.Valid() && TimerPath(path, old(Now(server)), Now(server), now, later)
    ensures timeout == Signed(Min(PingLeft(old(Now(server)), now), HeadLeft(Now(server), now)))
    ensures fits <==>
      var left := Min(PingLeft(old(Now(server)), now), HeadLeft(Now(server), now));
      left < 2147483647 || left == 4294967295
    ensures timeout != 0 && (fits ==> timeout >= -1)
    ensures timeout == -1 <==> NoPing(old(Now(server)), now) && NoHead(Now(server), now)
    ensures fits && timeout > 0 && Clocked(Now(server), now) ==>
      Awaits(old(Now(server)), Now(server), now, timeout)
    ensures Untouched(old(server.states), server.states, now, server.retransmitDelay)
    ensures old(ClockOk(server, now, later)) ==> fits && timeout >= -1
    ensures old(ClockOk(server, now, later)) ==> (timeout == -1 <==> old(server.connected) == 0 && server.queue == [])
    ensures server.pingStamp == if old(PingDue(Now(server), now)) then now else old(server.pingStamp)
  {
    hide Server.Inv, Server.Logged, Waiting, AllRecent, Untouched, Pushes, FiringPath, HeadDue, Snapshot.Sound;
    hide Awaits, Clocked;
    ghost var clockOk := ClockOk(server, now, later);
    TimersBounded(server, now, later);
    server.QueueAllocated();
    var left := PingWhenDue(server, now, later);
    ghost var states1 := server.states;
    left, path := FireExpired(server, now, left, clockOk && left == NEVER && old(server.connected > 0));
    UntouchedBefore(old(server.states), states1, server.states, now, server.retransmitDelay);
    TimersBounded(server, now, later);
    server.QueueAllocated();
    fits := left == NEVER || left < 0x7fff_ffff;
    timeout := Signed(left);
    TimerAwaits(path, old(Now(server)), Now(server), now, later);
  }

  /** Nobody has to be pinged: nobody was connected, or everybody has just been pinged. A delay of exactly
      the largest number is taken for none. */
  predicate NoPing(s: Snapshot, now: Timespec) {
    s.connected == 0 || PingDue(s, now) || Remaining(now, s.pingStamp, s.interval) == NEVER
  }

  /** Nothing has to be sent again. */
  predicate NoHead(s: Snapshot, now: Timespec) {
    s.queue == [] || (s.queue[0] in s.states && Remaining(now, s.states[s.queue[0]].stamp, s.delay) == NEVER)
  }

  lemma UntouchedBefore(states0: map<Addr, State>, states1: map<Addr, State>, states2: map<Addr, State>, now: Timespec,
                        delay: nat)
    requires Extends(states0, states1)
    requires Untouched(states1, states2, now, delay)
    ensures Untouched(states0, states2, now, delay)
  {
  }

  lemma TimersBounded(server: Server, now: Timespec, later: Timespec)
    requires server.Valid()
    ensures ClockOk(server, now, later) ==>
      PingLeft(Now(server), now) < 0x7fff_ffff || PingLeft(Now(server), now) == NEVER
    ensures ClockOk(server, now, later) && server.connected == 0 ==> PingLeft(Now(server), now) == NEVER
    ensures AllRecent(now, server.states) ==>
      if server.queue == [] then HeadLeft(Now(server), now) == NEVER else HeadLeft(Now(server), now) < 0x7fff_ffff
  {
    hide Server.Inv, Server.Logged;
    server.QueueAllocated();
    if Recent(now, server.pingStamp) { RecentBound(now, server.pingStamp, server.pingInterval); }
    if server.queue != [] && Recent(now, server.states[server.head].stamp) {
      RecentBound(now, server.states[server.head].stamp, server.retransmitDelay);
    }
  }
}
