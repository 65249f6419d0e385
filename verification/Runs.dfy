/** Whole runs of the proxy. */
module Runs {
  import opened IndexSet
  import opened ProxyState
  import opened ProxyServer
  import opened Draining
  import opened SessionLemmas
  import opened Effects
  import opened SoundStates
  import opened Timeout
  import opened Reception

  /** A packet that opens or closes a session carries no data. */
  predicate WellFormed(e: Event) {
    e.Received? ==> !(e.packet.syn && e.packet.ackreq)
  }

  /** Handles one event. The result says that no assertion failed. */
  method Handle(server: Server, e: Event) returns (ok: bool)
    requires server.Valid() && WellFormed(e)
    modifies server, server.lookup
    ensures server.Valid()
    ensures ok <==> !Trips(e, old(Now(server)), Now(server))
    ensures ok || e.TimerRan? ==> Effect(e, old(Now(server)), Now(server))
    ensures e.TimerRan? ==> HeadLeft(Now(server), e.now) > 0
    ensures e.Received? && old(FromSession(Now(server), e.packet, e.peer)) ==>
      (e.packet.syn && e.packet.opcode == ClosingOp ==> ok && e.packet.sessionId !in server.chains)
    ensures e.Shutdown? && ok ==> server.shutting && server.connected == 0 && AllAreClosing(server)
  {
    hide Server.Inv, Server.Logged, AllAreClosing, PacketReceived, PacketTrips, TimerPath, FlushedAll;
    hide Unshared, Snapshot.Sound;
    match e
    case Received(packet, peer, now) =>
      ok := Receive(server, packet, peer, now);
    case TimerRan(now, later) =>
      ghost var path;
      var timeout, fits;
      timeout, fits, path := TimeoutNext(server, now, later);
      ok := fits && timeout != 0 && timeout >= -1;
      ValidIsSound(server);
      TimerPathEnds(path, old(Now(server)), Now(server), now, later);
    case Shutdown(now) =>
      ok := Close(server, now);
    case Restart =>
      if !server.shutting || |server.sessions| != 0 {
        return false;
      }
      server.SetShutting(false);
      return true;
  }

  lemma TimerPathEnds(path: seq<Snapshot>, s: Snapshot, t: Snapshot, now: Timespec, later: Timespec)
    requires TimerPath(path, s, t, now, later) && t.Sound()
    ensures Effect(TimerRan(now, later), s, t) && HeadLeft(t, now) > 0
  {
    hide FiringPath, Pinged;
    SoundQueue(t);
    hide Snapshot.Sound;
  }

  /** Stops accepting clients and says goodbye to those there are. */
  method Close(server: Server, now: Timespec) returns (ok: bool)
    requires server.Valid()
    modifies server, server.lookup
    ensures server.Valid()
    ensures ok <==> !Trips(Shutdown(now), old(Now(server)), Now(server))
    ensures ok ==> Effect(Shutdown(now), old(Now(server)), Now(server))
    ensures ok ==> server.shutting && server.connected == 0 && AllAreClosing(server)
  {
    hide Server.Inv, Server.Logged, AllAreClosing, FlushedAll, Unshared;
    if server.shutting {
      return false;
    }
    server.SetShutting(true);
    ok := Flush(server, now);
  }

  method Flush(server: Server, now: Timespec) returns (ok: bool)
    requires server.Valid()
    modifies server, server.lookup
    ensures server.Valid() && server.shutting == old(server.shutting)
    ensures ok == (Unshared(old(server.bodies), old(server.sessions), old(server.connected))
                   && (old(server.sessions) == [] || old(server.queue) != [] || old(server.tail) == NULL))
    ensures if old(server.sessions) == [] then unchanged(server) && unchanged(server.lookup)
            else FlushedAll(old(Now(server)), Now(server), now)
    ensures server.connected == 0 && AllAreClosing(server)
  {
    hide Server.Inv, Server.Logged, AllAreClosing, AllClosing, Unshared;
    var alone, tailNull;
    ghost var p;
    alone, tailNull, p := server.ServerFlush(now);
    ok := alone && tailNull;
    NobodyLeft(server);
    FlushedAreClosing(server, p, old(server.sessions), now);
  }

  /** Every session has been sent a closing request. */
  ghost predicate AllAreClosing(server: Server)
    reads server
  {
    forall i :: 0 <= i < |server.sessions| ==> server.IsClosing(i)
  }

  lemma NobodyLeft(server: Server)
    requires server.Inv()
    ensures server.sessions == [] ==> server.connected == 0 && AllAreClosing(server)
  {
  }

  lemma FlushedAreClosing(server: Server, p: Addr, sessions0: seq<Session>, now: Timespec)
    requires server.Inv()
    ensures server.FlushedTo(p, sessions0, now) ==> server.connected == 0 && AllAreClosing(server)
  {
  }

  /** Before each event the server was in the state of the same index in the trace, and the state after an
      event is its effect on the state before. */
  ghost predicate Traced(events: seq<Event>, handled: nat, trace: seq<Snapshot>) {
    && handled <= |events| && |trace| == handled + 1
    && (forall k :: 0 <= k <= handled ==> trace[k].Sound())
    && forall k :: 0 <= k < handled ==>
         !Trips(events[k], trace[k], trace[k + 1]) && Effect(events[k], trace[k], trace[k + 1])
  }

  /** Handles events until one of them trips an assertion. */
  method Run(server: Server, events: seq<Event>) returns (handled: nat, ghost trace: seq<Snapshot>)
    requires server.Valid() && forall i :: 0 <= i < |events| ==> WellFormed(events[i])
    modifies server, server.lookup
    ensures server.Valid() && Traced(events, handled, trace)
    ensures trace[0] == old(Now(server))
    ensures handled == |events| ==> trace[handled] == Now(server)
    ensures handled < |events| ==> Tripped(events[handled], trace[handled], Now(server))
  {
    hide Server.Inv, Server.Logged, Now, Trips, Effect, Snapshot.Sound;
    handled, trace := 0, [Now(server)];
    ValidIsSound(server);
    while handled < |events|
      invariant server.Valid() && handled <= |events|
      invariant Traced(events, handled, trace) && trace[0] == old(Now(server)) && trace[handled] == Now(server)
    {
      var ok := Handle(server, events[handled]);
      if !ok {
        return;
      }
      handled := handled + 1;
      ValidIsSound(server);
      trace := trace + [Now(server)];
    }
  }

  /** Whatever happens to a new server, in any order and at any time, until an assertion fails: every
      state is sound and is the effect of one event on the state before. */
  method RunFromStart(limit: nat, delay: nat, interval: nat, chunks: seq<CommandList>, events: seq<Event>)
    returns (server: Server, handled: nat, ghost trace: seq<Snapshot>)
    requires limit < 0x7fff && 0 < delay < interval < ID_COUNT && 1 <= |chunks| < 0x100
    requires forall i :: 0 <= i < |events| ==> WellFormed(events[i])
    ensures server.Valid() && Traced(events, handled, trace)
    ensures trace[0] == Initial(limit, delay, interval, chunks)
    ensures handled == |events| ==> trace[handled] == Now(server)
    ensures handled < |events| ==> Tripped(events[handled], trace[handled], Now(server))
  {
    hide Server.Inv, Server.Logged, Trips, Traced;
    server := new Server(limit, delay, interval, chunks);
    handled, trace := Run(server, events);
  }

  // ---------------------------------------------------------------- running dry

  /** A packet is fired at most 13 times before it is gone. */
  lemma {:induction false} WeightBound(q: seq<Addr>, states: map<Addr, State>)
    requires forall i :: 0 <= i < |q| ==> q[i] in states ==> states[q[i]].resends <= RESENDS
    ensures Total(q, states, Weight) <= 13 * |q|
  {
    if q != [] {
      WeightBound(q[1..], states);
    }
  }

  /** When the queue is empty nobody owes anything. */
  lemma EmptyQueueNoDebt(server: Server)
    requires server.Inv() && server.queue == []
    ensures forall o :: o in server.chains ==> server.chains[o] == []
  {
  }

  lemma OutlivedTwice(a: map<nat, seq<Loc>>, b: map<nat, seq<Loc>>, c: map<nat, seq<Loc>>)
    requires Outlived(a, b) && Outlived(b, c)
    ensures Outlived(a, c)
  {
  }

  /** The timer fires at each of the times in turn. */
  ghost predicate Firings(path: seq<Snapshot>, times: seq<Timespec>) {
    |path| == |times| + 1 && forall k :: 0 <= k < |times| ==> Firing(path[k], path[k + 1], times[k])
  }

  /** However often the timer fires, at whatever times: it cannot fire more than 13 times for each
      packet in the queue. */
  lemma {:induction false} NoMoreFirings(path: seq<Snapshot>, times: seq<Timespec>)
    requires Firings(path, times) && path[0].Sound()
    ensures |times| <= Total(path[0].queue, path[0].states, Weight) <= 13 * |path[0].queue|
  {
    hide Firing, Snapshot.Sound;
    SoundQueue(path[0]);
    WeightBound(path[0].queue, path[0].states);
    FiringsBounded(path, times);
  }

  lemma {:induction false} FiringsBounded(path: seq<Snapshot>, times: seq<Timespec>)
    requires Firings(path, times) && QueueIn(path[0].queue, path[0].states)
    ensures |times| <= Total(path[0].queue, path[0].states, Weight)
    decreases |times|
  {
    hide QueueIn, Fired, Total;
    if times != [] {
      assert Firing(path[0], path[1], times[0]);
      WeightDecreases(path[0].queue, path[0].states, times[0], path[1].queue, path[1].states);
      FiredQueueIn(path[0].queue, path[0].states, times[0], path[1].queue, path[1].states);
      forall k | 0 <= k < |times| - 1
        ensures Firing(path[1..][k], path[1..][k + 1], times[1..][k])
      {
        assert Firing(path[k + 1], path[k + 2], times[k + 1]);
      }
      FiringsBounded(path[1..], times[1..]);
    }
  }

  /** Without acknowledgements and new packets, firing the timer at whatever times empties the queue, and
      every session that owed something is gone. */
  method Drain(server: Server, times: seq<Timespec>) returns (n: nat, ghost path: seq<Snapshot>)
    requires server.Valid() && |times| >= 13 * |server.queue|
    modifies server, server.lookup
    ensures server.Valid() && server.queue == [] && n <= 13 * |old(server.queue)| <= |times|
    ensures Firings(path, times[..n]) && path[0] == old(Now(server)) && path[n] == Now(server)
    ensures forall o :: o in old(server.chains) && old(server.chains[o]) != [] ==> o !in server.chains
    ensures forall o :: o in server.chains ==> o in old(server.chains)
  {
    hide Server.Inv, Server.Logged, Total, Firing, Now, QueueIn;
    n, path := 0, [Now(server)];
    ghost var w := FiringsLeft(server);
    server.QueueAllocated();
    while server.head != NULL
      invariant server.Valid() && (server.head == NULL <==> server.queue == [])
      invariant n + Total(server.queue, server.states, Weight) <= w <= |times|
      invariant Firings(path, times[..n]) && path[0] == old(Now(server)) && path[n] == Now(server)
      invariant Outlived(old(server.chains), server.chains)
      decreases Total(server.queue, server.states, Weight)
    {
      server.QueueAllocated();
      ghost var queue0, states0, chains0 := server.queue, server.states, server.chains;
      TotalPositive(server.queue, server.states);
      Fire(server, times[n]);
      WeightDecreases(queue0, states0, times[n], server.queue, server.states);
      OutlivedTwice(old(server.chains), chains0, server.chains);
      server.QueueAllocated();
      n := n + 1;
      path := path + [Now(server)];
    }
    EmptyQueueNoDebt(server);
  }

  lemma FiringsLeft(server: Server) returns (w: nat)
    requires server.Valid()
    ensures w == Total(server.queue, server.states, Weight) <= 13 * |server.queue|
  {
    hide Snapshot.Sound, Server.Inv, Server.Logged;
    ValidIsSound(server);
    SoundQueue(Now(server));
    w := Total(server.queue, server.states, Weight);
    WeightBound(server.queue, server.states);
  }

  lemma TotalPositive(q: seq<Addr>, states: map<Addr, State>)
    requires q != [] && q[0] in states
    ensures Total(q, states, Weight) > 0
  {
  }
}
