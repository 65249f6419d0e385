/** What the proxy answers to what a client sends: it acknowledges what it has taken and asks for what is missing. */
module Answers {
  import opened Basics
  import opened IndexSet
  import opened ProxyState
  import opened ProxyServer
  import opened JoinLemmas
  import opened SessionLemmas
  import opened History
  import opened Sequence
  import opened Effects
  import opened SoundStates
  import opened Runs
  import opened Uplink

  /** The last thing that has been sent. */
  predicate EndsIn(s: Snapshot, d: Datagram) {
    s.sent != [] && s.sent[|s.sent| - 1] == d
  }

  // ---------------------------------------------------------------- one packet

  /** What has been sent to session `x` after its packet with the given id. */
  predicate Answering(sent0: seq<Datagram>, sent1: seq<Datagram>, x: Session, remoteId: Word) {
    sent1 != []
    && var d := sent1[|sent1| - 1];
       var last := x.remoteIdLast % 0x1_0000;
       match ProxyVerdict(last, remoteId)
       case Next => d == Ack(x.peer, x.wireId, remoteId)
       case Ahead => d == RetxRequest(x.peer, x.wireId, (last + 1) % REMOTE_IDS) && sent1[..|sent1| - 1] == sent0
       case Behind => d == Ack(x.peer, x.wireId, last) && sent1[..|sent1| - 1] == sent0
  }

  /** The answer to a packet of session `o`, by the ids that go over the wire. */
  lemma AnswerIs(e: Event, s: Snapshot, t: Snapshot, o: nat)
    requires s.Sound() && IsData(e, s, o) && Effect(e, s, t) && WellFormed(e)
    ensures o in s.chains && Answering(s.sent, t.sent, s.SessionOf(o), e.packet.remoteId)
  {
    hide Snapshot.Sound, SessionReceived, Answering;
    KnownRecord(s, o);
    IdHigh(s, s.lookup[o] - 1);
    DataAnswered(s, t, s.lookup[o] - 1, e.packet, e.now);
  }

  lemma DataAnswered(s: Snapshot, t: Snapshot, i: nat, p: Packet, now: Timespec)
    requires i < |s.sessions| && p.ackreq && !p.syn && SessionReceived(s, t, i, p, now)
    ensures Answering(s.sent, t.sent, s.sessions[i], p.remoteId)
  {
    hide Snapshot.Sound, ProxyVerdict, Acked;
    var u :| InSession(s, u, t, i, p, now);
    if p.ack { AckedSame(s, u, i, p.ackId); }
    if IsNext(u, i, p.remoteId) {
      var path: seq<Snapshot> :| Taken(path, u, t, i, p.remoteId, p.updates, now);
      hide PushPath;
      assert |path| == |p.updates| + 1 by { LengthOfPushes(path, p.updates, now); }
      PushesKeepClients(path, p.updates, now);
    }
  }

  lemma AckedSame(s: Snapshot, t: Snapshot, i: nat, ackId: nat)
    requires Acked(s, t, i, ackId)
    ensures i < |s.sessions| == |t.sessions| && t.sent == s.sent
    ensures t.sessions[i].peer == s.sessions[i].peer && t.sessions[i].wireId == s.sessions[i].wireId
    ensures t.sessions[i].remoteIdLast == s.sessions[i].remoteIdLast
  {
  }

  /** The clients stay where they are. */
  lemma {:induction false} PushesKeepClients(path: seq<Snapshot>, updates: seq<Update>, now: Timespec)
    requires PushPath(path, updates, now)
    ensures var a, b := path[0].sessions, path[|updates|].sessions;
      |b| == |a| && forall i :: 0 <= i < |a| ==> b[i].peer == a[i].peer && b[i].wireId == a[i].wireId
    decreases |updates|
  {
    hide Snapshot.Sound, Pushes;
    if updates != [] {
      var n := |updates| - 1;
      PushesKeepClients(path[..n + 1], updates[..n], now);
      PushKeepsClients(path[n], path[n + 1], updates[n].payload, now);
    }
  }

  lemma PushKeepsClients(s: Snapshot, t: Snapshot, payload: Payload, stamp: Timespec)
    requires Pushes(s, t, payload, stamp)
    ensures |t.sessions| == |s.sessions| && forall i :: 0 <= i < |s.sessions| ==>
      t.sessions[i].peer == s.sessions[i].peer && t.sessions[i].wireId == s.sessions[i].wireId
  {
    hide OnlyNexts, Pushed, PushDatagrams;
  }

  /** By the numbers of the packets: `taken` packets have been taken from session `o`, and packet `n` arrives. The next
      one is acknowledged; if it is up to 16382 ahead of that the next one is asked for; if it is up to 16385 behind
      what was taken last is acknowledged again. */
  lemma AnswerMeans(e: Event, s: Snapshot, t: Snapshot, o: nat, taken: nat, n: nat)
    requires s.Sound() && IsData(e, s, o) && Effect(e, s, t) && WellFormed(e)
    requires Last(s, o) == taken % REMOTE_IDS && n > 0 && e.packet.remoteId == n % REMOTE_IDS
    ensures o in s.chains
    ensures var id := s.SessionOf(o).wireId;
      && (n == taken + 1 ==> EndsIn(t, Ack(e.peer, id, n % REMOTE_IDS)))
      && (taken + 1 < n <= taken + 1 + 16382 ==>
            EndsIn(t, RetxRequest(e.peer, id, (taken + 1) % REMOTE_IDS)) && t.sent[..|t.sent| - 1] == s.sent)
      && (n <= taken <= n + 16384 ==>
            EndsIn(t, Ack(e.peer, id, taken % REMOTE_IDS)) && t.sent[..|t.sent| - 1] == s.sent)
  {
    hide Snapshot.Sound, Effect, ProxyVerdict, ClientVerdict;
    AnswerIs(e, s, t, o);
    DistanceWraps(taken, n);
    VerdictsAgreeExactlyWhen(taken % REMOTE_IDS, n % REMOTE_IDS);
    if -16385 <= Lead(taken, n) <= 16382 { VerdictIsTrueOrder(taken, n); }
  }

  /** The packet trips an assertion if and only if it is the next one and cannot be passed on: nobody is connected, not
      even its sender, or a command in it is for camera 0. */
  lemma DataTripsExactlyWhen(e: Event, s: Snapshot, t: Snapshot, o: nat, taken: nat, n: nat)
    requires s.Sound() && IsData(e, s, o)
    requires Last(s, o) == taken % REMOTE_IDS && n > 0 && e.packet.remoteId == n % REMOTE_IDS
    requires -REMOTE_IDS < Lead(taken, n) < REMOTE_IDS
    ensures Trips(e, s, t) <==> n == taken + 1 && (s.connected == 0 || NoCamera in e.packet.updates)
  {
    hide Snapshot.Sound;
    TakesNext(e, s, o, taken, n);
  }

  // ---------------------------------------------------------------- everything that is sent

  predicate IsAnswer(d: Datagram) {
    d.Ack? || d.RetxRequest?
  }

  /** More has been sent, but nothing that acknowledges anything or asks for it. */
  ghost predicate NoAnswers(sent0: seq<Datagram>, sent1: seq<Datagram>) {
    sent0 <= sent1 && forall k :: |sent0| <= k < |sent1| ==> !IsAnswer(sent1[k])
  }

  lemma NoAnswersTwice(a: seq<Datagram>, b: seq<Datagram>, c: seq<Datagram>)
    requires NoAnswers(a, b) && NoAnswers(b, c)
    ensures NoAnswers(a, c)
  {
  }

  lemma {:induction false} TransmissionsAreData(sessions: seq<Session>, lookup: seq<int>, b: Body, state: State, n: nat)
    requires n <= |b.slots|
    ensures forall k :: 0 <= k < |Transmissions(sessions, lookup, b, state, n)| ==>
      Transmissions(sessions, lookup, b, state, n)[k].Data?
  {
    if n > 0 { TransmissionsAreData(sessions, lookup, b, state, n - 1); }
  }

  lemma FiringAnswersNothing(s: Snapshot, t: Snapshot, now: Timespec)
    requires Firing(s, t, now)
    ensures NoAnswers(s.sent, t.sent)
  {
    hide Dealt, Descends;
    var p := s.queue[0];
    var b := s.bodies[p];
    if s.states[p].resends > 0 {
      TransmissionsAreData(s.sessions, s.lookup, b, s.states[p], b.remaining);
    } else if !s.states[p].closing {
      ClosingsTo(s.sessions, b, b.remaining, s.sent, t.sent);
    }
  }

  lemma PushAnswersNothing(s: Snapshot, t: Snapshot, payload: Payload, stamp: Timespec)
    requires Pushes(s, t, payload, stamp)
    ensures NoAnswers(s.sent, t.sent)
  {
    hide Reached, OnlyNexts, Pushed;
  }

  lemma {:induction false} PathAnswersNothing(path: seq<Snapshot>, now: Timespec)
    requires FiringPath(path, now)
    ensures NoAnswers(path[0].sent, path[|path| - 1].sent)
  {
    hide Snapshot.Sound, Firing, HeadDue, NoAnswers;
    if |path| == 1 {
      NothingSent(path[0].sent);
    } else {
      var n := |path| - 1;
      PathAnswersNothing(path[..n], now);
      assert path[..n][n - 1] == path[n - 1];
      assert HeadDue(path[n - 1], now) && Firing(path[n - 1], path[n - 1 + 1], now);
      FiringAnswersNothing(path[n - 1], path[n], now);
      NoAnswersTwice(path[0].sent, path[n - 1].sent, path[n].sent);
    }
  }

  lemma NothingSent(sent: seq<Datagram>)
    ensures NoAnswers(sent, sent)
  {
  }

  lemma TimerAnswersNothing(s: Snapshot, t: Snapshot, now: Timespec, later: Timespec)
    requires Effect(TimerRan(now, later), s, t)
    ensures NoAnswers(s.sent, t.sent)
  {
    hide Snapshot.Sound, Firing, HeadDue, NoAnswers, Pushes;
    var path: seq<Snapshot> :| TimerPath(path, s, t, now, later);
    PathAnswersNothing(path, now);
    if PingDue(s, now) {
      PushAnswersNothing(s, path[0].(pingStamp := s.pingStamp), Ping, later);
      NoAnswersTwice(s.sent, path[0].sent, t.sent);
    }
  }

  lemma {:induction false} UpdatesAnswerNothing(path: seq<Snapshot>, updates: seq<Update>, now: Timespec)
    requires PushPath(path, updates, now)
    ensures NoAnswers(path[0].sent, path[|updates|].sent)
    decreases |updates|
  {
    hide Snapshot.Sound, Pushes, NoAnswers;
    if updates == [] {
      NothingSent(path[0].sent);
    } else {
      var n := |updates| - 1;
      UpdatesAnswerNothing(path[..n + 1], updates[..n], now);
      PushAnswersNothing(path[n], path[n + 1], updates[n].payload, now);
      NoAnswersTwice(path[0].sent, path[n].sent, path[n + 1].sent);
    }
  }

  lemma AcceptedAnswersNothing(s: Snapshot, t: Snapshot, clientId: nat, peer: Peer, now: Timespec)
    requires Accepted(s, t, clientId, peer, now)
    ensures NoAnswers(s.sent, t.sent)
  {
    hide Opened, NewPacket;
  }

  lemma RequestAnswersNothing(s: Snapshot, t: Snapshot, clientId: nat, peer: Peer, now: Timespec)
    requires OpenRequested(s, t, clientId, peer, now)
    ensures NoAnswers(s.sent, t.sent)
  {
    hide Accepted;
    if s.Unused(clientId) && s.HasRoom() { AcceptedAnswersNothing(s, t, clientId, peer, now); }
  }

  lemma HandshakeAnswersNothing(s: Snapshot, t: Snapshot, clientId: nat, now: Timespec)
    requires HandshakeDone(s, t, clientId, now)
    ensures NoAnswers(s.sent, t.sent)
  {
    hide Completed;
  }

  lemma OpeningAnswersNothing(s: Snapshot, t: Snapshot, p: Packet, peer: Peer, now: Timespec)
    requires OpeningReceived(s, t, p, peer, now)
    ensures NoAnswers(s.sent, t.sent)
  {
    hide OpenRequested, HandshakeDone, NoAnswers;
    NothingSent(s.sent);
    if IsOpenRequest(p) {
      RequestAnswersNothing(s, t, p.sessionId, peer, now);
    } else if !p.syn && p.ack && s.Opens(p.sessionId, peer) {
      HandshakeAnswersNothing(s, t, p.sessionId, now);
    }
  }

  lemma ShutdownAnswersNothing(s: Snapshot, t: Snapshot, now: Timespec)
    requires Effect(Shutdown(now), s, t)
    ensures NoAnswers(s.sent, t.sent)
  {
    hide AllClosing;
    if s.sessions != [] {
      forall k | |s.sent| <= k < |t.sent|
        ensures !IsAnswer(t.sent[k])
      {
        var j := |t.sent| - 1 - k;
        assert t.sent[|t.sent| - 1 - j] == Data(t.sessions[j].peer, t.sessions[j].id, 0, CloseRequest);
      }
    }
  }

  /** All answers but the last are of no one. */
  ghost predicate OneAnswer(sent0: seq<Datagram>, sent1: seq<Datagram>) {
    sent1 != [] && NoAnswers(sent0, sent1[..|sent1| - 1])
  }

  lemma SessionAnswers(s: Snapshot, t: Snapshot, i: nat, p: Packet, now: Timespec)
    requires SessionReceived(s, t, i, p, now) && !(p.syn && p.ackreq)
    ensures if p.ackreq then OneAnswer(s.sent, t.sent) else NoAnswers(s.sent, t.sent)
  {
    hide Snapshot.Sound, Acked, Left, Snapshot.IsClosing, NoAnswers;
    var u :| InSession(s, u, t, i, p, now);
    if p.ack { AckedSame(s, u, i, p.ackId); }
    NothingSent(s.sent);
    if p.ackreq {
      AnsweredOnce(u, t, i, p.remoteId, p.updates, now);
    } else {
      ClosedAnswersNothing(u, t, i, p);
    }
  }

  lemma ClosedAnswersNothing(s: Snapshot, t: Snapshot, i: nat, p: Packet)
    requires if p.syn && p.opcode == ClosingOp then Closing(s, t, i)
             else if p.syn && p.opcode == ClosedOp then Closed(s, t, i) else t == s
    ensures NoAnswers(s.sent, t.sent)
  {
    hide Left;
  }

  lemma AnsweredOnce(s: Snapshot, t: Snapshot, i: nat, remoteId: Word, updates: seq<Update>, now: Timespec)
    requires Answered(s, t, i, remoteId, updates, now)
    ensures OneAnswer(s.sent, t.sent)
  {
    hide Snapshot.Sound, PushPath, IsNext, NoAnswers;
    if IsNext(s, i, remoteId) {
      var path: seq<Snapshot> :| Taken(path, s, t, i, remoteId, updates, now);
      assert |path| == |updates| + 1 by { LengthOfPushes(path, updates, now); }
      UpdatesAnswerNothing(path, updates, now);
    } else {
      NothingSent(s.sent);
    }
  }

  /** The packet of any session that wants to be acknowledged. */
  predicate BringsData(e: Event, s: Snapshot) {
    e.Received? && IsData(e, s, e.packet.sessionId)
  }

  /** A packet that wants to be acknowledged gets one answer, which is the last thing that is sent; nothing else is
      answered. */
  lemma AnswersOnlyData(e: Event, s: Snapshot, t: Snapshot)
    requires Effect(e, s, t) && WellFormed(e)
    ensures if BringsData(e, s) then OneAnswer(s.sent, t.sent) else NoAnswers(s.sent, t.sent)
  {
    hide Snapshot.Sound, OpeningReceived, SessionReceived, TimerPath, FlushedAll, NoAnswers;
    NothingSent(s.sent);
    match e {
      case Received(p, peer, now) =>
        if IsOpening(p) {
          OpeningAnswersNothing(s, t, p, peer, now);
        } else if FromSession(s, p, peer) {
          SessionAnswers(s, t, s.lookup[p.sessionId] - 1, p, now);
        }
      case TimerRan(now, later) => TimerAnswersNothing(s, t, now, later);
      case Shutdown(now) => ShutdownAnswersNothing(s, t, now);
      case Restart =>
    }
  }

  // ---------------------------------------------------------------- runs

  /** The id is that of one of the first `taken` packets behind packet `base`, or of that packet itself. */
  ghost predicate Names(id: nat, base: nat, taken: nat) {
    exists c: nat :: c <= taken && IsNumber(id, base, c)
  }

  predicate IsNumber(id: nat, base: nat, c: nat) {
    id == (base + c) % REMOTE_IDS
  }

  /** If the datagram answers session `o`, it acknowledges a packet that has been taken, or asks for the one behind. */
  ghost predicate Truthful(d: Datagram, o: nat, base: nat, taken: nat) {
    && (d.Ack? && d.sessionId == o ==> Names(d.ackId, base, taken))
    && (d.RetxRequest? && d.sessionId == o ==> Names(d.localId, base + 1, taken))
  }

  ghost predicate AllTruthful(sent0: seq<Datagram>, sent1: seq<Datagram>, o: nat, base: nat, taken: nat) {
    |sent0| <= |sent1| && forall m :: |sent0| <= m < |sent1| ==> Truthful(sent1[m], o, base, taken)
  }

  /** Over whole runs of all sessions: whatever the proxy sends to the session acknowledges packets that have been taken
      and no others, and asks for the packet behind one that has been. */
  lemma {:induction false} AnswersTruthful(events: seq<Event>, handled: nat, trace: seq<Snapshot>, numbers: seq<nat>,
                                           o: nat, base: nat, n: nat)
    requires InWindow(events, handled, trace, numbers, o, base) && Last(trace[0], o) == base % REMOTE_IDS
    requires n <= handled && o >= SERVER_ID
    ensures AllTruthful(trace[0].sent, trace[n].sent, o, base, |TakenNumbers(events, trace, numbers, n, o)|)
  {
    hide Snapshot.Sound, Effect, Trips, WellFormed, Last, Takes, IsData, AllTruthful;
    if n == 0 {
      NothingYet(trace[0].sent, o, base);
    } else {
      var k := n - 1;
      AnswersTruthful(events, handled, trace, numbers, o, base, k);
      TakenInOrder(events, handled, trace, numbers, o, base, k);
      assert Effect(events[k], trace[k], trace[k + 1]);
      AnswersOnlyData(events[k], trace[k], trace[k + 1]);
      var taken := |TakenNumbers(events, trace, numbers, k, o)|;
      EventTruthful(events[k], trace[k], trace[k + 1], o, base, taken, numbers[k]);
      MoreTruthful(trace[0].sent, trace[k].sent, trace[k + 1].sent, o, base, taken,
                   |TakenNumbers(events, trace, numbers, n, o)|);
    }
  }

  lemma NothingYet(sent: seq<Datagram>, o: nat, base: nat)
    ensures AllTruthful(sent, sent, o, base, 0)
  {
  }

  lemma MoreTruthful(a: seq<Datagram>, b: seq<Datagram>, c: seq<Datagram>, o: nat, base: nat, taken: nat, taken': nat)
    requires AllTruthful(a, b, o, base, taken) && AllTruthful(b, c, o, base, taken') && taken <= taken' && b <= c
    ensures AllTruthful(a, c, o, base, taken')
  {
    forall m | |a| <= m < |c|
      ensures Truthful(c[m], o, base, taken')
    {
      if m < |b| { assert c[m] == b[m] && Truthful(b[m], o, base, taken); }
    }
  }

  /** One event: the answer that it brings about, if any, is truthful. */
  lemma EventTruthful(e: Event, s: Snapshot, t: Snapshot, o: nat, base: nat, taken: nat, n: nat)
    requires s.Sound() && Effect(e, s, t) && WellFormed(e) && o >= SERVER_ID && o in s.chains
    requires Last(s, o) == (base + taken) % REMOTE_IDS
    requires IsData(e, s, o) ==> n > 0 && e.packet.remoteId == n % REMOTE_IDS
                                 && -REMOTE_IDS < Lead(base + taken, n) < REMOTE_IDS
    ensures s.sent <= t.sent
    ensures AllTruthful(s.sent, t.sent, o, base, taken + if Takes(e, s, o) then 1 else 0)
  {
    hide Snapshot.Sound, Effect, WellFormed;
    AnswersOnlyData(e, s, t);
    if IsData(e, s, o) {
      AnswerIs(e, s, t, o);
      TakesNext(e, s, o, base + taken, n);
      DataTruthful(s.sent, t.sent, s.SessionOf(o), e.packet.remoteId, o, base, taken, n);
    } else if BringsData(e, s) {
      AnswerIs(e, s, t, e.packet.sessionId);
      AnotherSession(s, e.packet.sessionId);
    }
  }

  lemma DataTruthful(sent0: seq<Datagram>, sent1: seq<Datagram>, x: Session, remoteId: Word, o: nat, base: nat,
                     taken: nat, n: nat)
    requires OneAnswer(sent0, sent1) && Answering(sent0, sent1, x, remoteId)
    requires x.remoteIdLast == (base + taken) % REMOTE_IDS && n > 0 && remoteId == n % REMOTE_IDS
    requires -REMOTE_IDS < Lead(base + taken, n) < REMOTE_IDS
    ensures AllTruthful(sent0, sent1, o, base, taken + if n == base + taken + 1 then 1 else 0)
  {
    hide ProxyVerdict, ClientVerdict;
    NextIsExact(base + taken, n);
    DistanceWraps(base + taken, n);
    var last := (base + taken) % REMOTE_IDS;
    assert IsNumber(last, base, taken) && IsNumber((last + 1) % REMOTE_IDS, base + 1, taken);
    if n == base + taken + 1 { assert IsNumber(remoteId, base, taken + 1); }
  }

  /** A session is answered under its own id or that of its client. */
  lemma AnotherSession(s: Snapshot, id: nat)
    requires s.Sound() && id >= SERVER_ID && s.Known(id)
    ensures s.SessionOf(id).wireId == id || s.SessionOf(id).wireId < SERVER_ID
  {
    hide Snapshot.Sound;
    KnownRecord(s, id);
    WireId(s, s.lookup[id] - 1);
  }
}
