/** The handshakes between client and proxy, from the request of the one to what the other makes of the answer. */
module Handshakes {
  import opened Basics
  import opened ProxyState
  import opened ProxyServer
  import opened SessionLemmas
  import opened History
  import opened Effects
  import opened SoundStates
  import opened Runs
  import opened ClosingDown
  import C = Client
  import D = Delivery

  /** How a datagram of the proxy reads to a client. */
  function Heard(d: Datagram): C.Incoming
    requires d.sessionId < 0x1_0000 && (d.Data? ==> d.remoteId < 0x1_0000)
  {
    match d
    case Data(_, id, remoteId, payload) => D.ReadAs(id, remoteId, payload)
    case Reject(_, id) => C.Incoming(false, true, id, 0, C.RejectOp, SYN_LEN)
    case ClosedReply(_, id) => C.Incoming(false, true, id, 0, C.ClosedOp, SYN_LEN)
    case _ => C.Incoming(false, false, d.sessionId, 0, C.OtherOp, HEADER)
  }

  /** There is one more thing that has been sent. */
  predicate Sent(s: Snapshot, t: Snapshot, d: Datagram) {
    t.sent == s.sent + [d]
  }

  /** A request to open a session under an id that is nobody else's. */
  predicate Asks(e: Event, s: Snapshot) {
    e.Received? && IsOpenRequest(e.packet) && s.Unused(e.packet.sessionId)
  }

  /** A client that asks to be let in is, if and only if there is a free place and the proxy is not being closed: then
      there is one more record, with the next server id; otherwise nothing has changed. */
  lemma LetInExactlyWhen(e: Event, s: Snapshot, t: Snapshot)
    requires s.Sound() && Effect(e, s, t) && Asks(e, s)
    ensures |s.sessions| < s.limit && !s.shutting <==> |t.sessions| == |s.sessions| + 1
    ensures var id := e.packet.sessionId;
      if |s.sessions| < s.limit && !s.shutting then
        var next := (s.sessionIdLast + 1) % 0x8000;
        && Sent(s, t, Data(e.peer, id, 0, Accept(next))) && t.sessionIdLast == next
        && t.sessions[..|s.sessions|] == s.sessions
        && var x := t.sessions[|s.sessions|];
           x.id == 0x8000 + next && x.wireId == id && x.peer == e.peer && x.remoteId == 0 && x.remoteIdLast == 0
      else t == s.(sent := s.sent + [Reject(e.peer, id)])
  {
    SoundLimit(s);
    hide Snapshot.Sound, NewPacket;
  }

  /** What a client hears that waits for an answer: that it has been accepted if it has been let in, and that it has
      been rejected otherwise. */
  lemma AnswerIsHeard(e: Event, s: Snapshot, t: Snapshot, c: C.State)
    requires s.Sound() && Effect(e, s, t) && Asks(e, s) && c.buffer.Open?
    ensures |t.sent| == |s.sent| + 1
    ensures var d := t.sent[|s.sent|];
      && d.sessionId == e.packet.sessionId && d.peer == e.peer && (d.Data? ==> d.remoteId < 0x1_0000)
      && var (heard, status) := C.Parsed(c, Heard(d));
         if |t.sessions| > |s.sessions| then status.Accepted? && heard.buffer.Ack? && heard.last == 0
         else status.Rejected? && heard.buffer.Null?
  {
    hide Snapshot.Sound, Effect;
    LetInExactlyWhen(e, s, t);
  }

  /** A client that closes its session is told so by the answer. */
  lemma ClosingIsHeard(e: Event, s: Snapshot, t: Snapshot, id: Word, peer: Peer, c: C.State)
    requires s.Sound() && t.Sound() && Effect(e, s, t) && IsRequest(e, id, peer) && Has(s, id, peer)
    ensures t.sent != []
    ensures var d := t.sent[|t.sent| - 1];
      && d.peer == peer && d.sessionId == id && d.ClosedReply?
      && C.Parsed(C.CloseStarted(c, id), Heard(d)).1.Closed?
  {
    hide Snapshot.Sound, SessionReceived;
    FoundBySession(s, e, id, peer);
    RequestObeyed(s, t, s.lookup[id] - 1, e.packet, e.now);
  }

  /** A closing request of the proxy makes the client agree. */
  lemma RequestIsHeard(peer: Peer, id: Word, c: C.State)
    requires !c.buffer.Close?
    ensures var (heard, status) := C.Parsed(c, Heard(Data(peer, id, 0, CloseRequest)));
      status.Closing? && Agrees(heard, id)
  {
  }

  /** A client that asks again, because the answer was lost, gets the same answer, and nothing else happens. */
  lemma AskingAgain(e: Event, s: Snapshot, t: Snapshot, u: Snapshot)
    requires s.Sound() && t.Sound() && Asks(e, s) && Effect(e, s, t) && Effect(e, t, u)
    ensures t.sent != [] && u == t.(sent := t.sent + [t.sent[|t.sent| - 1]])
  {
    hide Snapshot.Sound, Effect;
    LetInExactlyWhen(e, s, t);
    if |s.sessions| < s.limit && !s.shutting {
      IdOf(t, |s.sessions|);
      AnsweredAgain(e, t, u, |s.sessions|);
    } else {
      LetInExactlyWhen(e, t, u);
    }
  }

  lemma AnsweredAgain(e: Event, t: Snapshot, u: Snapshot, i: nat)
    requires e.Received? && IsOpenRequest(e.packet) && Effect(e, t, u) && i < |t.sessions|
    requires e.packet.sessionId < |t.lookup| && t.lookup[e.packet.sessionId] == i + 1
    requires t.sessions[i].peer == e.peer && t.sessions[i].id >= 0x8000
    ensures u == t.(sent := t.sent + [Data(e.peer, e.packet.sessionId, 0, Accept(t.sessions[i].id - 0x8000))])
  {
    hide Accepted;
  }

  /** What a connected client reads from a packet that is pushed to it: from behind the header on as many bytes as were
      pushed; nothing from a ping. */
  lemma PushIsRead(d: Datagram, c: C.State, k: nat)
    requires d.Data? && d.sessionId < 0x1_0000 && d.remoteId == (k + 1) % REMOTE_IDS
    requires Ordinary(d.payload) && !c.buffer.Close? && c.last == k % REMOTE_IDS
    ensures var (heard, status) := C.Parsed(c, Heard(d));
      && status.Write? && heard.ack == C.IdPacket(d.sessionId, d.remoteId)
      && heard.readLen - heard.next == if d.payload.Commands? then |d.payload.data| else 0
  {
    C.DataMeans(c, Heard(d), k, k + 1);
  }
}
