/** When connected sessions are pinged: regularly, whatever else happens. */
module Pings {
  import opened Basics
  import opened ProxyState
  import opened ProxyServer
  import opened JoinLemmas
  import opened SessionLemmas
  import opened History
  import opened Draining
  import opened Effects
  import opened SoundStates
  import opened Runs
  import opened Receipts

  lemma {:induction false} PathHistory(path: seq<Snapshot>, now: Timespec)
    requires FiringPath(path, now)
    ensures path[|path| - 1].history == path[0].history && path[|path| - 1].pingStamp == path[0].pingStamp
    ensures path[|path| - 1].interval == path[0].interval
  {
    hide Snapshot.Sound, Firing, HeadDue;
    if |path| > 1 {
      var n := |path| - 1;
      PathHistory(path[..n], now);
      assert path[..n][n - 1] == path[n - 1];
      assert HeadDue(path[n - 1], now) && Firing(path[n - 1], path[n - 1 + 1], now);
      FiringHistory(path[n - 1], path[n], now);
    }
  }

  lemma FiringHistory(s: Snapshot, t: Snapshot, now: Timespec)
    requires Firing(s, t, now)
    ensures t.history == s.history && t.pingStamp == s.pingStamp && t.interval == s.interval
  {
    hide Dealt, Descends, Fired, Handled;
  }

  lemma TimerHistory(s: Snapshot, t: Snapshot, now: Timespec, later: Timespec)
    requires Effect(TimerRan(now, later), s, t)
    ensures t.history == if PingDue(s, now) then Pushed(s.history, s.sessions, s.connected, Ping) else s.history
    ensures t.pingStamp == (if PingDue(s, now) then now else s.pingStamp) && t.interval == s.interval
  {
    hide Snapshot.Sound, Firing, HeadDue, PingDue, Reached, Pushed, PushDatagrams, OnlyNexts;
    var path: seq<Snapshot> :| TimerPath(path, s, t, now, later);
    PathHistory(path, now);
  }

  /** The interval is over, if the stamp does not lie some seven weeks ahead of the clock. */
  lemma DueWhenOver(s: Snapshot, now: Timespec)
    requires s.interval - Elapsed(now, s.pingStamp) < 0x1_0000_0000
    ensures PingDue(s, now) <==> s.connected > 0 && Elapsed(now, s.pingStamp) >= s.interval
  {
  }

  /** A run of the timer pings a connected session if and only if as much time has gone by since the ping timer was
      started as the interval says. */
  lemma PingsExactlyWhen(s: Snapshot, t: Snapshot, now: Timespec, later: Timespec, o: nat)
    requires s.Sound() && Effect(TimerRan(now, later), s, t) && IsConnected(s.sessions, s.connected, o)
    requires s.interval - Elapsed(now, s.pingStamp) < 0x1_0000_0000
    ensures o in s.history && o in t.history
    ensures t.history[o] == if Elapsed(now, s.pingStamp) >= s.interval then s.history[o] + [Ping] else s.history[o]
  {
    hide Snapshot.Sound, Effect, Elapsed, Pushed, PingDue;
    TimerHistory(s, t, now, later);
    DueWhenOver(s, now);
    var i :| 0 <= i < s.connected && i < |s.sessions| && s.sessions[i].id == o;
    ConnectedLinks(s, i);
    Logs(s);
    PushedAt(s.history, s.sessions, s.connected, Ping, i);
  }

  lemma Logs(s: Snapshot)
    requires s.Sound()
    ensures SessionsLogged(s.sessions, s.connected, s.history) && DistinctIds(s.sessions) && s.connected <= |s.sessions|
  {
    hide QueueOk, PacketsOk, SessionsOk, ChainKeysOk;
    TableDistinct(s.sessions, s.connected, s.lookup);
  }

  // ---------------------------------------------------------------- the ping timer

  /** The event starts the ping timer: a ping, or the first session that is connected. */
  ghost predicate StartsTimer(e: Event, s: Snapshot) {
    if e.TimerRan? then PingDue(s, e.now) else s.connected == 0 && Completes(e, s)
  }

  lemma TimerKept(e: Event, s: Snapshot, t: Snapshot)
    requires s.Sound() && Effect(e, s, t)
    ensures t.pingStamp == (if StartsTimer(e, s) then e.now else s.pingStamp) && t.interval == s.interval
  {
    hide Snapshot.Sound, OpeningReceived, SessionReceived, TimerPath, PingDue;
    match e {
      case Received(p, peer, now) =>
        if IsOpening(p) {
          OpeningTimer(e, s, t);
        } else if FromSession(s, p, peer) {
          SessionTimer(s, t, s.lookup[p.sessionId] - 1, p, now);
        }
      case TimerRan(now, later) => TimerHistory(s, t, now, later);
      case Shutdown(now) => ShutdownTimer(s, t, now);
      case Restart =>
    }
  }

  lemma ShutdownTimer(s: Snapshot, t: Snapshot, now: Timespec)
    requires Effect(Shutdown(now), s, t)
    ensures t.pingStamp == s.pingStamp && t.interval == s.interval
  {
    hide FlushedAll;
    if s.sessions != [] { FlushedTimer(s.(shutting := true), t, now); }
  }

  lemma FlushedTimer(s: Snapshot, t: Snapshot, now: Timespec)
    requires FlushedAll(s, t, now)
    ensures t.pingStamp == s.pingStamp && t.interval == s.interval
  {
    hide AllClosing;
  }

  lemma OpeningTimer(e: Event, s: Snapshot, t: Snapshot)
    requires s.Sound() && e.Received? && IsOpening(e.packet) && OpeningReceived(s, t, e.packet, e.peer, e.now)
    ensures t.pingStamp == if s.connected == 0 && Completes(e, s) then e.now else s.pingStamp
    ensures t.interval == s.interval
  {
    hide Snapshot.Sound, OpenRequested, HandshakeDone;
    var p := e.packet;
    KnownClient(s, p.sessionId, e.peer);
    if IsOpenRequest(p) {
      RequestTimer(s, t, p.sessionId, e.peer, e.now);
    } else if !p.syn && p.ack && s.Opens(p.sessionId, e.peer) {
      HandshakeTimer(s, t, p.sessionId, e.now);
    }
  }

  lemma RequestTimer(s: Snapshot, t: Snapshot, clientId: nat, peer: Peer, now: Timespec)
    requires OpenRequested(s, t, clientId, peer, now)
    ensures t.pingStamp == s.pingStamp && t.interval == s.interval
  {
    hide OpenRequested;
    if s.Unused(clientId) && s.HasRoom() {
      RequestAccepted(s, t, clientId, peer, now);
      AcceptedTimer(s, t, clientId, peer, now);
    } else {
      RequestSends(s, t, clientId, peer, now);
    }
  }

  lemma RequestAccepted(s: Snapshot, t: Snapshot, clientId: nat, peer: Peer, now: Timespec)
    requires OpenRequested(s, t, clientId, peer, now) && s.Unused(clientId) && s.HasRoom()
    ensures Accepted(s, t, clientId, peer, now)
  {
    hide Accepted;
  }

  lemma RequestSends(s: Snapshot, t: Snapshot, clientId: nat, peer: Peer, now: Timespec)
    requires OpenRequested(s, t, clientId, peer, now) && !(s.Unused(clientId) && s.HasRoom())
    ensures t == s.(sent := t.sent)
  {
    hide Accepted;
  }

  lemma AcceptedTimer(s: Snapshot, t: Snapshot, clientId: nat, peer: Peer, now: Timespec)
    requires Accepted(s, t, clientId, peer, now)
    ensures t.pingStamp == s.pingStamp && t.interval == s.interval
  {
    hide Opened, NewPacket;
  }

  lemma HandshakeTimer(s: Snapshot, t: Snapshot, clientId: nat, now: Timespec)
    requires HandshakeDone(s, t, clientId, now)
    ensures t.pingStamp == (if s.connected == 0 then now else s.pingStamp) && t.interval == s.interval
  {
    hide Completed, ChunkDatagrams;
  }

  lemma SessionTimer(s: Snapshot, t: Snapshot, i: nat, p: Packet, now: Timespec)
    requires SessionReceived(s, t, i, p, now)
    ensures t.pingStamp == s.pingStamp && t.interval == s.interval
  {
    hide Snapshot.Sound, Acked, Left, Answered, Snapshot.IsClosing;
    var u :| InSession(s, u, t, i, p, now);
    if p.ack { AckedTimer(s, u, i, p.ackId); }
    if p.syn && (p.opcode == ClosingOp || p.opcode == ClosedOp) {
      if t != u { LeftTimer(u, t, i); }
    } else if p.ackreq {
      AnsweredTimer(u, t, i, p.remoteId, p.updates, now);
    }
  }

  lemma AckedTimer(s: Snapshot, t: Snapshot, i: nat, ackId: nat)
    requires Acked(s, t, i, ackId)
    ensures t.pingStamp == s.pingStamp && t.interval == s.interval
  {
    hide Framed, Kept;
  }

  lemma LeftTimer(s: Snapshot, t: Snapshot, i: nat)
    requires Left(s, t, i)
    ensures t.pingStamp == s.pingStamp && t.interval == s.interval
  {
    hide Framed, Kept;
  }

  lemma AnsweredTimer(s: Snapshot, t: Snapshot, i: nat, remoteId: Word, updates: seq<Update>, now: Timespec)
    requires Answered(s, t, i, remoteId, updates, now)
    ensures t.pingStamp == s.pingStamp && t.interval == s.interval
  {
    hide Snapshot.Sound, PushPath, IsNext;
    if IsNext(s, i, remoteId) {
      var path: seq<Snapshot> :| Taken(path, s, t, i, remoteId, updates, now);
      assert |path| == |updates| + 1 by { LengthOfPushes(path, updates, now); }
      PushesTimer(path, updates, now);
    }
  }

  lemma {:induction false} PushesTimer(path: seq<Snapshot>, updates: seq<Update>, now: Timespec)
    requires PushPath(path, updates, now)
    ensures path[|updates|].pingStamp == path[0].pingStamp && path[|updates|].interval == path[0].interval
    decreases |updates|
  {
    hide Snapshot.Sound, Pushes;
    if updates != [] {
      var n := |updates| - 1;
      PushesTimer(path[..n + 1], updates[..n], now);
      PushTimer(path[n], path[n + 1], updates[n].payload, now);
    }
  }

  lemma PushTimer(s: Snapshot, t: Snapshot, payload: Payload, stamp: Timespec)
    requires Pushes(s, t, payload, stamp)
    ensures t.pingStamp == s.pingStamp && t.interval == s.interval
  {
    hide Reached, Pushed, PushDatagrams, OnlyNexts;
  }

  // ---------------------------------------------------------------- runs

  /** When the ping timer was last started by one of the first `n` events. */
  ghost function LastStart(events: seq<Event>, trace: seq<Snapshot>, n: nat): Timespec
    requires n <= |events| && n <= |trace| && trace != []
  {
    if n == 0 then trace[0].pingStamp
    else if StartsTimer(events[n - 1], trace[n - 1]) then events[n - 1].now
    else LastStart(events, trace, n - 1)
  }

  lemma {:induction false} StampIsLastStart(events: seq<Event>, handled: nat, trace: seq<Snapshot>, n: nat)
    requires Traced(events, handled, trace) && n <= handled
    ensures trace[n].pingStamp == LastStart(events, trace, n) && trace[n].interval == trace[0].interval
  {
    hide Snapshot.Sound, Effect, Trips, StartsTimer;
    if n > 0 {
      StampIsLastStart(events, handled, trace, n - 1);
      assert Effect(events[n - 1], trace[n - 1], trace[n - 1 + 1]);
      TimerKept(events[n - 1], trace[n - 1], trace[n]);
    }
  }

  /** Over every run, whatever joins, leaves or is sent in between: a run of the timer pings every connected session if
      and only if the interval is over since the last ping, or since the first session was connected. */
  lemma PingsRegularly(events: seq<Event>, handled: nat, trace: seq<Snapshot>, k: nat, o: nat)
    requires Traced(events, handled, trace) && k < handled && events[k].TimerRan?
    requires IsConnected(trace[k].sessions, trace[k].connected, o)
    requires trace[0].interval - Elapsed(events[k].now, LastStart(events, trace, k)) < 0x1_0000_0000
    ensures o in trace[k].history && o in trace[k + 1].history
    ensures trace[k + 1].history[o] ==
      if Elapsed(events[k].now, LastStart(events, trace, k)) >= trace[0].interval then trace[k].history[o] + [Ping]
      else trace[k].history[o]
  {
    hide Snapshot.Sound, Effect, Trips, StartsTimer, Elapsed;
    StampIsLastStart(events, handled, trace, k);
    assert Effect(events[k], trace[k], trace[k + 1]);
    PingsExactlyWhen(trace[k], trace[k + 1], events[k].now, events[k].later, o);
  }
}
