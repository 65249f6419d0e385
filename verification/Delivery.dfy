/** One session as a distributed protocol: the proxy pushes packets, the network loses, repeats and
    reorders them and the client's answers, and the client takes packets in order. */
module Delivery {
  import opened Basics
  import opened Sequence
  import opened Client
  import A = Acknowledgement
  import P = ProxyState

  type Payload = P.Payload

  /** `pushed` are the payloads pushed to the session with the given id, numbered from 1. The session's chain holds the
      packets behind the first `released`. `delivered` are the payloads the client has processed. An
      answer records what it carries and how much had been delivered when it was sent. */
  datatype Session = Session(id: Word, pushed: seq<Payload>, released: nat, client: State, delivered: seq<Payload>,
                             acks: seq<Answer>, requests: seq<Answer>)

  datatype Answer = Answer(id: Word, delivered: nat)

  datatype Event =
    | Push(payload: Payload)   // the proxy pushes the next packet
    | Arrives(n: nat)          // the network hands over a copy of packet n
    | AcceptArrives            // ... or of the accept response
    | AckArrives(i: nat)       // ... or of an answer to the proxy

  /** How a packet that carries a payload reads to the client. */
  function ReadAs(id: Word, remoteId: Word, payload: Payload): Incoming {
    match payload
    case Accept(_) => Incoming(false, true, id, remoteId, AcceptOp, P.Length(payload))
    case CloseRequest => Incoming(false, true, id, remoteId, ClosingOp, P.Length(payload))
    case _ => Incoming(true, false, id, remoteId, OtherOp, P.Length(payload))
  }

  /** Packet `n` of the session, as every copy of it reads. */
  function DataPacket(s: Session, n: nat): Incoming
    requires 1 <= n <= |s.pushed|
  {
    ReadAs(s.id, n % REMOTE_IDS, s.pushed[n - 1]).(ackreq := true)
  }

  const ACCEPT := Incoming(false, true, 0, 0, AcceptOp, SYN_LEN)

  /** An event needs something it can happen to: what was never sent does not arrive. */
  predicate Possible(s: Session, e: Event) {
    match e
    case Push(_) => s.released <= |s.pushed|
    case Arrives(n) => 1 <= n <= |s.pushed|
    case AcceptArrives => true
    case AckArrives(i) => i < |s.acks| && s.released <= |s.pushed|
  }

  /** How many packets the proxy lets go: by the comparison that wraps around, or by the one it makes. */
  function LetGo(s: Session, id: Word, wrapping: bool): (m: nat)
    requires s.released <= |s.pushed|
    ensures s.released + m <= |s.pushed|
  {
    var n := |s.pushed| - s.released;
    if wrapping then A.ReleasedMasked(|s.pushed| % REMOTE_IDS, n, id) else A.Released(|s.pushed| % REMOTE_IDS, n, id)
  }

  function Step(s: Session, e: Event, wrapping: bool): Session
    requires Possible(s, e)
  {
    match e
    case Push(payload) => s.(pushed := s.pushed + [payload])
    case Arrives(n) =>
      var (client, status) := Parsed(s.client, DataPacket(s, n));
      var delivered := if status.Write? then s.delivered + [s.pushed[n - 1]] else s.delivered;
      if client.buffer.RetxReq? then
        s.(client := client, delivered := delivered, requests := s.requests + [Answer(client.retx.id, |delivered|)])
      else
        s.(client := client, delivered := delivered, acks := s.acks + [Answer(client.ack.id, |delivered|)])
    case AcceptArrives => s.(client := Parsed(s.client, ACCEPT).0)
    case AckArrives(i) => s.(released := s.released + LetGo(s, s.acks[i].id, wrapping))
  }

  /** A connection that has just been accepted. */
  predicate Start(s: Session) {
    && s.pushed == s.delivered == [] && s.released == 0 && s.acks == [] && s.requests == []
    && s.client.buffer.Ack? && s.client.last == 0
  }

  /** What is assumed of the network, checkable at every event: copies arrive within a lag of one round
      of the id space, and acknowledgements within half a round of what is already released. An accept
      response does not turn up after a retransmit request unless nothing is lost by starting over. */
  predicate Timely(s: Session, e: Event) {
    match e
    case Push(_) => true
    case Arrives(n) => -REMOTE_IDS < Lead(|s.delivered|, n) < REMOTE_IDS
    case AcceptArrives => s.client.buffer.Ack? || |s.delivered| % REMOTE_IDS == 0
    case AckArrives(i) => i < |s.acks| ==> -16384 <= s.acks[i].delivered - (s.released + 1) < REMOTE_IDS
  }

  /** The client is in step: what it processed is a prefix of what was pushed, in order and without
      repetition, and every answer it ever sent named the right packet. */
  ghost predicate InStep(s: Session) {
    && |s.delivered| <= |s.pushed| && s.delivered == s.pushed[..|s.delivered|]
    && s.client.last == |s.delivered| % REMOTE_IDS
    && !s.client.buffer.Close?
    && s.released <= |s.pushed|
    && (forall i :: 0 <= i < |s.acks| ==>
          s.acks[i].id == s.acks[i].delivered % REMOTE_IDS && s.acks[i].delivered <= |s.delivered|)
    && (forall i :: 0 <= i < |s.requests| ==>
          s.requests[i].id == (s.requests[i].delivered + 1) % REMOTE_IDS && s.requests[i].delivered <= |s.delivered|)
  }

  /** A copy that is not more than one round of ids late or early keeps the client in step ... */
  lemma ArrivalKeepsOrder(s: Session, n: nat, wrapping: bool)
    requires InStep(s) && Possible(s, Arrives(n)) && Timely(s, Arrives(n))
    ensures InStep(Step(s, Arrives(n), wrapping))
  {
    NextIsExact(|s.delivered|, n);
    DistanceWraps(|s.delivered|, n);
    if n == |s.delivered| + 1 {
      assert s.pushed[..n] == s.delivered + [s.pushed[n - 1]];
    }
  }

  /** ... and an acknowledgement always does, whichever comparison the proxy makes ... */
  lemma AckKeepsOrder(s: Session, i: nat, wrapping: bool)
    requires InStep(s) && Possible(s, AckArrives(i))
    ensures InStep(Step(s, AckArrives(i), wrapping))
  {
  }

  /** ... as does a push. */
  lemma PushKeepsOrder(s: Session, payload: Payload, wrapping: bool)
    requires InStep(s)
    ensures InStep(Step(s, Push(payload), wrapping))
  {
  }

  /** Every event keeps the client in step. */
  lemma StepKeepsOrder(s: Session, e: Event, wrapping: bool)
    requires InStep(s) && Possible(s, e) && Timely(s, e)
    ensures InStep(Step(s, e, wrapping))
  {
    hide InStep;
    match e
    case Push(payload) => PushKeepsOrder(s, payload, wrapping);
    case Arrives(n) => ArrivalKeepsOrder(s, n, wrapping);
    case AcceptArrives => AcceptKeepsOrderExactlyWhen(s, wrapping);
    case AckArrives(i) => AckKeepsOrder(s, i, wrapping);
  }

  /** Packet `n` is processed exactly when it is the first one that has not been. */
  lemma DeliversExactlyTheNext(s: Session, n: nat, wrapping: bool)
    requires InStep(s) && Possible(s, Arrives(n)) && Timely(s, Arrives(n))
    ensures var d := Step(s, Arrives(n), wrapping).delivered;
      d == if n == |s.delivered| + 1 then s.delivered + [s.pushed[|s.delivered|]] else s.delivered
  {
    NextIsExact(|s.delivered|, n);
  }

  /** Within half a round a retransmit request is sent exactly for packets from the future. */
  lemma RequestsExactlyWhenAhead(s: Session, n: nat, wrapping: bool)
    requires InStep(s) && Possible(s, Arrives(n)) && -16385 <= Lead(|s.delivered|, n) <= 16382
    ensures var t := Step(s, Arrives(n), wrapping);
      if n > |s.delivered| + 1 then
        t.requests == s.requests + [Answer((|s.delivered| + 1) % REMOTE_IDS, |s.delivered|)] && t.acks == s.acks
      else t.requests == s.requests && |t.acks| == |s.acks| + 1
  {
    VerdictIsTrueOrder(|s.delivered|, n);
    DistanceWraps(|s.delivered|, n);
  }

  /** What never was sent does not arrive. */
  ghost predicate AllPossible(s: Session, events: seq<Event>, wrapping: bool)
    decreases |events|
  {
    events == [] || (Possible(s, events[0]) && AllPossible(Step(s, events[0], wrapping), events[1..], wrapping))
  }

  ghost function Run(s: Session, events: seq<Event>, wrapping: bool): Session
    requires AllPossible(s, events, wrapping)
    decreases |events|
  {
    if events == [] then s else Run(Step(s, events[0], wrapping), events[1..], wrapping)
  }

  /** Every event is possible and timely. */
  ghost predicate RunOk(s: Session, events: seq<Event>, wrapping: bool): (ok: bool)
    ensures ok ==> AllPossible(s, events, wrapping)
    decreases |events|
  {
    events == [] ||
    (Possible(s, events[0]) && Timely(s, events[0]) && RunOk(Step(s, events[0], wrapping), events[1..], wrapping))
  }

  /** Exactly-once in-order delivery over every run. */
  lemma {:induction false} DeliversInOrder(s: Session, events: seq<Event>, wrapping: bool)
    requires InStep(s) && RunOk(s, events, wrapping)
    ensures InStep(Run(s, events, wrapping))
    decreases |events|
  {
    if events != [] {
      StepKeepsOrder(s, events[0], wrapping);
      DeliversInOrder(Step(s, events[0], wrapping), events[1..], wrapping);
    }
  }

  /** From the start: whatever the network does in time, the client has processed what was pushed, in
      order and without repetition, up to some point. */
  lemma DeliversFromStart(s: Session, events: seq<Event>, wrapping: bool)
    requires Start(s) && RunOk(s, events, wrapping)
    ensures Run(s, events, wrapping).delivered <= Run(s, events, wrapping).pushed
  {
    DeliversInOrder(s, events, wrapping);
  }

  /** An accept response keeps the client in step exactly when it is timely: after a retransmit request
      it makes the client start over. */
  lemma AcceptKeepsOrderExactlyWhen(s: Session, wrapping: bool)
    requires InStep(s)
    ensures InStep(Step(s, AcceptArrives, wrapping)) <==> Timely(s, AcceptArrives)
  {
  }

  /** In terms of what is processed: after an accept response a late copy of the first packet of the round is
      processed once more exactly if the last answer was not an acknowledgement. */
  lemma AcceptRepeatsExactlyWhen(s: Session, wrapping: bool)
    requires InStep(s) && |s.delivered| % REMOTE_IDS != 0
    ensures var n := |s.delivered| - |s.delivered| % REMOTE_IDS + 1;
      && n <= |s.delivered| && Possible(s, Arrives(n)) && Timely(s, Arrives(n))
      && Step(Step(s, AcceptArrives, wrapping), Arrives(n), wrapping).delivered
           == if s.client.buffer.Ack? then s.delivered else s.delivered + [s.pushed[n - 1]]
  {
    var n := |s.delivered| - |s.delivered| % REMOTE_IDS + 1;
    FirstOfRound(|s.delivered|);
    if s.client.buffer.Ack? {
      AcceptKeepsOrderExactlyWhen(s, wrapping);
      DeliversExactlyTheNext(Step(s, AcceptArrives, wrapping), n, wrapping);
    }
  }

  lemma FirstOfRound(k: nat)
    ensures (k - k % REMOTE_IDS + 1) % REMOTE_IDS == 1 && -REMOTE_IDS < Lead(k, k - k % REMOTE_IDS + 1)
  {
  }

  /** What goes wrong: of three packets the first arrives and then the third, so that the client asks for
      the second; an accept response makes it start over; and a repetition of the first packet is processed
      again. */
  lemma RepeatedAfterAccept(s: Session, a: Payload, b: Payload, c: Payload)
    requires Start(s)
    ensures var events :=
        [Push(a)] + ([Push(b)] + ([Push(c)] + ([Arrives(1)]
                                               + ([Arrives(3)] + ([AcceptArrives] + ([Arrives(1)] + []))))));
      AllPossible(s, events, false) && Run(s, events, false).delivered == [a, a]
  {
    var s1 := Step(s, Push(a), false);
    var s2 := Step(s1, Push(b), false);
    var s3 := Step(s2, Push(c), false);
    var s4 := Step(s3, Arrives(1), false);
    var s5 := Step(s4, Arrives(3), false);
    AsksForSecond(s3, a, b, c);
    StartsOver(s5, a);
    hide Step;
    var end := [AcceptArrives] + ([Arrives(1)] + []);
    Before(s4, Arrives(3), end, false);
    Before(s3, Arrives(1), [Arrives(3)] + end, false);
    Before(s2, Push(c), [Arrives(1)] + ([Arrives(3)] + end), false);
    Before(s1, Push(b), [Push(c)] + ([Arrives(1)] + ([Arrives(3)] + end)), false);
    Before(s, Push(a), [Push(b)] + ([Push(c)] + ([Arrives(1)] + ([Arrives(3)] + end))), false);
  }

  lemma AsksForSecond(s: Session, a: Payload, b: Payload, c: Payload)
    requires s.pushed == [a, b, c] && s.delivered == [] && s.client.buffer.Ack? && s.client.last == 0
    ensures Possible(s, Arrives(1)) && Possible(Step(s, Arrives(1), false), Arrives(3))
    ensures var t := Step(Step(s, Arrives(1), false), Arrives(3), false);
      t.pushed == s.pushed && t.delivered == [a] && t.client.buffer.RetxReq?
  {
  }

  lemma StartsOver(s: Session, a: Payload)
    requires s.pushed != [] && s.pushed[0] == a && s.delivered == [a] && s.client.buffer.RetxReq?
    ensures var events := [AcceptArrives] + ([Arrives(1)] + []);
      AllPossible(s, events, false) && Run(s, events, false).delivered == [a, a]
  {
    var t := Step(s, AcceptArrives, false);
    Before(t, Arrives(1), [], false);
    Before(s, AcceptArrives, [Arrives(1)] + [], false);
  }

  lemma Before(s: Session, e: Event, rest: seq<Event>, wrapping: bool)
    requires Possible(s, e) && AllPossible(Step(s, e, wrapping), rest, wrapping)
    ensures AllPossible(s, [e] + rest, wrapping)
    ensures Run(s, [e] + rest, wrapping) == Run(Step(s, e, wrapping), rest, wrapping)
  {
  }

  // ---------------------------------------------------------------- what the proxy still holds

  /** With the wrapping comparison an acknowledgement releases up to what it stands for or nothing. */
  lemma AckReleasesDelivered(s: Session, i: nat)
    requires InStep(s) && s.released <= |s.delivered| && Possible(s, AckArrives(i)) && Timely(s, AckArrives(i))
    ensures var t := Step(s, AckArrives(i), true);
      && s.released <= t.released <= |s.delivered|
      && (s.released < s.acks[i].delivered <= s.released + 0x4000 ==> t.released == s.acks[i].delivered)
  {
    var k := s.acks[i].delivered;
    var n := |s.pushed| - s.released;
    A.MaskedReleasesUpTo(|s.pushed| % REMOTE_IDS, n, k % REMOTE_IDS);
    AckOffset(|s.pushed|, s.released, k);
  }

  lemma AckOffset(pushed: nat, released: nat, k: nat)
    requires released <= pushed && -16384 <= k - (released + 1) < REMOTE_IDS
    ensures A.Offset(pushed % REMOTE_IDS, pushed - released, k % REMOTE_IDS) ==
      if k > released then k - released - 1 else REMOTE_IDS + k - released - 1
  {
    WholeRounds(released + 1, pushed / REMOTE_IDS);
    assert A.FirstId(pushed % REMOTE_IDS, pushed - released) == (released + 1) % REMOTE_IDS;
    WholeRounds(k - (released + 1), k / REMOTE_IDS - (released + 1) / REMOTE_IDS);
    if k > released { WholeRounds(k - released - 1, 0); } else { WholeRounds(k - released - 1, -1); }
  }

  lemma WholeRounds(a: int, n: int)
    ensures (a - n * REMOTE_IDS) % REMOTE_IDS == a % REMOTE_IDS
    ensures 0 <= a - n * REMOTE_IDS < REMOTE_IDS ==> a % REMOTE_IDS == a - n * REMOTE_IDS
  {
  }

  /** With the wrapping comparison the proxy never lets go of a packet the client still needs ... */
  lemma {:induction false} NothingIsLost(s: Session, events: seq<Event>)
    requires InStep(s) && s.released <= |s.delivered| && RunOk(s, events, true)
    ensures Run(s, events, true).released <= |Run(s, events, true).delivered|
    decreases |events|
  {
    if events != [] {
      var e := events[0];
      StepKeepsOrder(s, e, true);
      match e {
        case AckArrives(i) => AckReleasesDelivered(s, i);
        case Arrives(n) => DeliversExactlyTheNext(s, n, true);
        case _ =>
      }
      NothingIsLost(Step(s, e, true), events[1..]);
    }
  }

  /** ... so the first undelivered packet can be sent again, and that gets the session on. */
  lemma RetransmissionDelivers(s: Session, wrapping: bool)
    requires InStep(s) && s.released <= |s.delivered| < |s.pushed|
    ensures var n := |s.delivered| + 1;
      && s.released < n && Possible(s, Arrives(n)) && Timely(s, Arrives(n))
      && Step(s, Arrives(n), wrapping).delivered == s.pushed[..n]
  {
    DeliversExactlyTheNext(s, |s.delivered| + 1, wrapping);
  }

  lemma OneMore(s: Session, e: Event, rest: seq<Event>, wrapping: bool)
    requires Possible(s, e) && Timely(s, e) && RunOk(Step(s, e, wrapping), rest, wrapping)
    ensures RunOk(s, [e] + rest, wrapping) && Run(s, [e] + rest, wrapping) == Run(Step(s, e, wrapping), rest, wrapping)
  {
  }

  /** With the comparison the proxy makes, what a caller can check beforehand to know that nothing is
      released that was not delivered: the acknowledged id lies numerically far above the oldest one, or
      all that passes, which is everything up to where the ids wrap around, has been delivered. */
  predicate AckSafe(s: Session, i: nat)
    requires Possible(s, AckArrives(i))
  {
    var f := (s.released + 1) % REMOTE_IDS;
    var n := |s.pushed| - s.released;
    var ack := s.acks[i].id;
    f + 0x3fff < ack || (if ack <= 0x3fff then n else Min(n, REMOTE_IDS - f)) <= |s.delivered| - s.released
  }

  /** The condition is exact for one acknowledgement ... */
  lemma KeepsUndeliveredExactlyWhen(s: Session, i: nat)
    requires InStep(s) && s.released <= |s.delivered| && Possible(s, AckArrives(i))
    ensures Step(s, AckArrives(i), false).released <= |s.delivered| <==> AckSafe(s, i)
  {
    A.ReleasedWithoutWrap(|s.pushed| % REMOTE_IDS, |s.pushed| - s.released, s.acks[i].id);
    FirstOfRest(|s.pushed|, s.released);
  }

  lemma FirstOfRest(pushed: nat, released: nat)
    requires released <= pushed
    ensures A.FirstId(pushed % REMOTE_IDS, pushed - released) == (released + 1) % REMOTE_IDS
  {
    WholeRounds(released + 1, pushed / REMOTE_IDS);
  }

  /** Along the whole run the proxy holds every undelivered packet. */
  ghost predicate NeverLost(s: Session, events: seq<Event>)
    requires AllPossible(s, events, false)
    decreases |events|
  {
    s.released <= |s.delivered| && (events == [] || NeverLost(Step(s, events[0], false), events[1..]))
  }

  /** Every acknowledgement that arrives is safe. */
  ghost predicate AllAcksSafe(s: Session, events: seq<Event>)
    requires AllPossible(s, events, false)
    decreases |events|
  {
    events == [] ||
    ((events[0].AckArrives? ==> AckSafe(s, events[0].i)) && AllAcksSafe(Step(s, events[0], false), events[1..]))
  }

  /** ... and for whole runs. */
  lemma {:induction false} NeverLostExactlyWhen(s: Session, events: seq<Event>)
    requires InStep(s) && s.released <= |s.delivered| && RunOk(s, events, false)
    ensures NeverLost(s, events) <==> AllAcksSafe(s, events)
    decreases |events|
  {
    hide InStep, AckSafe;
    if events != [] {
      var e := events[0];
      StepKeepsOrder(s, e, false);
      var t := Step(s, e, false);
      match e {
        case AckArrives(i) => KeepsUndeliveredExactlyWhen(s, i);
        case Arrives(n) => DeliversExactlyTheNext(s, n, false);
        case _ =>
      }
      if t.released <= |t.delivered| {
        NeverLostExactlyWhen(t, events[1..]);
      }
    }
  }

  /** With the comparison the proxy makes this fails: of three packets the first arrives and is
      acknowledged, and the proxy lets go of all three. */
  lemma LostByUnwrappedComparison(s: Session, a: Payload, b: Payload, c: Payload)
    requires Start(s)
    ensures var events := [Push(a)] + ([Push(b)] + ([Push(c)] + ([Arrives(1)] + ([AckArrives(0)] + []))));
      && RunOk(s, events, false)
      && Run(s, events, false).delivered == [a] && Run(s, events, false).released == 3
  {
    var s1 := Step(s, Push(a), false);
    var s2 := Step(s1, Push(b), false);
    var s3 := Step(s2, Push(c), false);
    var end := [Arrives(1)] + ([AckArrives(0)] + []);
    AllReleased(s3, a, b, c);
    hide Parsed;
    OneMore(s2, Push(c), end, false);
    OneMore(s1, Push(b), [Push(c)] + end, false);
    OneMore(s, Push(a), [Push(b)] + ([Push(c)] + end), false);
  }

  lemma AllReleased(s: Session, a: Payload, b: Payload, c: Payload)
    requires s.pushed == [a, b, c] && s.delivered == [] && s.released == 0 && s.acks == []
    requires s.client.buffer.Ack? && s.client.last == 0
    ensures var events := [Arrives(1)] + ([AckArrives(0)] + []);
      RunOk(s, events, false) && Run(s, events, false).delivered == [a] && Run(s, events, false).released == 3
  {
    var t := Step(s, Arrives(1), false);
    assert t.acks == [Answer(1, 1)] && t.delivered == [a];
    A.ReleasedWithoutWrap(3, 3, 1);
    hide Parsed;
    OneMore(t, AckArrives(0), [], false);
    OneMore(s, Arrives(1), [AckArrives(0)] + [], false);
  }
}
