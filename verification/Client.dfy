/** The client's side of a connection: what a received packet does to its state. */
module Client {
  import opened Basics
  import opened Sequence

  /** Which of the prepared packets the write buffer points to. */
  datatype Buffer = Null | Open | Ack | Close | RetxReq

  datatype Opcode = OpenOp | AcceptOp | RejectOp | ClosingOp | ClosedOp | OtherOp

  /** The fields of a received packet that are looked at. */
  datatype Incoming = Incoming(ackreq: bool, syn: bool, sessionId: Word, remoteId: Word, opcode: Opcode, len: nat)

  datatype Status = Error | Write | Accepted | Rejected | Closing | Closed | WriteOnly | NoStatus

  /** A packet with an id field: an acknowledgement or a retransmit request. */
  datatype IdPacket = IdPacket(sessionId: Word, id: Word)

  datatype ClosePacket = ClosePacket(sessionId: Word, retx: bool, opcode: Opcode)

  /** Everything a connection consists of, as one value. */
  datatype State = State(buffer: Buffer, last: Word, ack: IdPacket, retx: IdPacket, close: ClosePacket,
                         readLen: nat, next: nat)

  /** The response to a packet that wants to be acknowledged. */
  function Received(s: State, p: Incoming): (State, Status) {
    match ClientVerdict(s.last, p.remoteId)
    case Next =>
      (s.(buffer := Ack, last := p.remoteId % REMOTE_IDS, ack := IdPacket(p.sessionId, p.remoteId), readLen := p.len,
          next := HEADER), Write)
    case Ahead =>
      (s.(buffer := RetxReq, retx := IdPacket(p.sessionId, (s.last + 1) % REMOTE_IDS)), WriteOnly)
    case Behind =>
      (s.(buffer := Ack, ack := IdPacket(p.sessionId, s.last)), WriteOnly)
  }

  /** The effect of a packet on a connection. */
  function Parsed(s: State, p: Incoming): (State, Status) {
    if s.buffer.Close? then
      if p.syn && p.opcode.ClosedOp? then (s.(close := s.close.(retx := true, opcode := ClosingOp)), Closed)
      else if p.syn && p.opcode.ClosingOp? then (s.(close := ClosePacket(p.sessionId, false, ClosedOp)), WriteOnly)
      else (s.(close := ClosePacket(p.sessionId, true, ClosingOp)), WriteOnly)
    else if p.ackreq then Received(s, p)
    else if !p.syn then (s, NoStatus)
    else if p.opcode.AcceptOp? then
      if s.buffer.Ack? then (s.(ack := IdPacket(p.sessionId, 0)), WriteOnly)
      else (s.(buffer := Ack, ack := IdPacket(p.sessionId, 0), last := 0), Accepted)
    else if p.opcode.ClosingOp? then (s.(buffer := Close, close := ClosePacket(p.sessionId, false, ClosedOp)), Closing)
    else if p.opcode.RejectOp? then (s.(buffer := Null), Rejected)
    else (s, Error)
  }

  /** A connection that sends its opening request. */
  function Opened(s: State): State {
    s.(buffer := Open)
  }

  /** A connection that sends its closing request. */
  function CloseStarted(s: State, sessionId: Word): State {
    s.(buffer := Close, close := ClosePacket(sessionId, false, ClosingOp))
  }

  class Connection {
    var buffer: Buffer
    var remoteIdLast: Word
    var ack: IdPacket
    var retx: IdPacket
    var close: ClosePacket
    var readLen: nat
    var cmdIndexNext: nat

    function Value(): State
      reads this
    {
      State(buffer, remoteIdLast, ack, retx, close, readLen, cmdIndexNext)
    }

    /** Parses a received packet. */
    method Parse(p: Incoming) returns (status: Status)
      modifies this
      ensures (Value(), status) == Parsed(old(Value()), p)
    {
      if buffer == Close {
        close := close.(retx := true, opcode := ClosingOp);
        if p.syn {
          if p.opcode == ClosedOp {
            return Closed;
          }
          if p.opcode == ClosingOp {
            close := close.(retx := false, opcode := ClosedOp);
          }
        }
        close := close.(sessionId := p.sessionId);
        return WriteOnly;
      }
      if p.ackreq {
        var next := (remoteIdLast + 1) % REMOTE_IDS;
        var recved := p.remoteId % REMOTE_IDS;
        if recved == next {
          remoteIdLast := recved;
          buffer := Ack;
          ack := IdPacket(p.sessionId, p.remoteId);
          readLen := p.len;
          cmdIndexNext := HEADER;
          return Write;
        } else if (recved - next) % REMOTE_IDS < (REMOTE_IDS - 1) / 2 {
          buffer := RetxReq;
          retx := IdPacket(p.sessionId, next);
        } else {
          buffer := Ack;
          ack := IdPacket(p.sessionId, remoteIdLast);
        }
        return WriteOnly;
      } else if !p.syn {
        return NoStatus;
      } else if p.opcode == AcceptOp {
        ack := IdPacket(p.sessionId, 0);
        if buffer == Ack {
          return WriteOnly;
        }
        buffer := Ack;
        remoteIdLast := 0;
        return Accepted;
      } else if p.opcode == ClosingOp {
        close := ClosePacket(p.sessionId, false, ClosedOp);
        buffer := Close;
        return Closing;
      } else if p.opcode == RejectOp {
        buffer := Null;
        return Rejected;
      }
      return Error;
    }

    /** Starts or repeats the opening handshake. */
    method ConnectionOpen() returns (retransmit: bool)
      modifies this
      ensures Value() == Opened(old(Value())) && (retransmit <==> old(buffer) == Open)
    {
      retransmit := buffer == Open;
      buffer := Open;
    }

    /** Starts the closing handshake for the session of the packet read last. */
    method ConnectionClose(sessionId: Word)
      modifies this
      ensures Value() == CloseStarted(old(Value()), sessionId)
    {
      close := ClosePacket(sessionId, false, ClosingOp);
      buffer := Close;
    }
  }

  /** A packet that neither carries data nor accepts or closes the connection. */
  predicate IsQuiet(p: Incoming) {
    !p.ackreq && !(p.syn && (p.opcode.AcceptOp? || p.opcode.ClosingOp?))
  }

  predicate IsAccept(p: Incoming) {
    !p.ackreq && p.syn && p.opcode.AcceptOp?
  }

  /** Whatever a connection has been through: opening it and receiving an accept response, with nothing
      but quiet packets in between, starts its sequence of packets over. Further accept responses are
      acknowledged and change nothing. */
  lemma {:induction false} OpeningStartsOver(s: State, packets: seq<Incoming>, accept: Incoming)
    requires IsAccept(accept) && forall i :: 0 <= i < |packets| ==> IsQuiet(packets[i])
    ensures var (t, status) := Parsed(ParsedAll(Opened(s), packets).0, accept);
      && status.Accepted? && t.buffer.Ack? && t.last == 0 && t.ack == IdPacket(accept.sessionId, 0)
      && Parsed(t, accept) == (t, WriteOnly)
  {
    QuietKeepsWaiting(Opened(s), packets);
  }

  lemma {:induction false} QuietKeepsWaiting(s: State, packets: seq<Incoming>)
    requires s.buffer.Open? || s.buffer.Null?
    requires forall i :: 0 <= i < |packets| ==> IsQuiet(packets[i])
    ensures var t := ParsedAll(s, packets).0; (t.buffer.Open? || t.buffer.Null?) && t.last == s.last
    decreases |packets|
  {
    if packets != [] {
      QuietKeepsWaiting(Parsed(s, packets[0]).0, packets[1..]);
    }
  }

  /** A data packet that gets in between, say one of the session before, is answered all the same; unless it
      came from too far ahead, the accept response then does not start the sequence over. */
  lemma DataSpoilsOpening(s: State, p: Incoming, accept: Incoming)
    requires IsAccept(accept) && p.ackreq
    ensures var (t, status) := Parsed(Parsed(Opened(s), p).0, accept);
      && (status.Accepted? <==> ClientVerdict(s.last, p.remoteId).Ahead?)
      && t.last == match ClientVerdict(s.last, p.remoteId)
                   case Ahead => 0
                   case Next => (s.last + 1) % REMOTE_IDS
                   case Behind => s.last
  {
  }

  /** What each status says about the packet, for a connection that is not closing. */
  lemma StatusMeans(s: State, p: Incoming)
    requires !s.buffer.Close?
    ensures var status := Parsed(s, p).1; var opcode := if p.syn && !p.ackreq then p.opcode else OtherOp;
      && (status.Write? || (status.WriteOnly? && opcode != AcceptOp) <==> p.ackreq)
      && (status.Accepted? <==> opcode == AcceptOp && s.buffer != Ack)
      && (status.Rejected? <==> opcode == RejectOp)
      && (status.Closing? <==> opcode == ClosingOp)
      && (status.NoStatus? <==> !p.ackreq && !p.syn)
      && (status.Error? <==> !p.ackreq && p.syn && p.opcode !in {AcceptOp, RejectOp, ClosingOp})
      && !status.Closed?
  {
  }

  /** Where a packet leaves a connection that waits for an answer, or none: it is let in, turned away, or asked to
      close, and only data is acknowledged. */
  lemma BufferMeans(s: State, p: Incoming)
    requires !s.buffer.Close?
    ensures var (t, status) := Parsed(s, p);
      && (status.Accepted? ==> t == s.(buffer := Ack, ack := IdPacket(p.sessionId, 0), last := 0))
      && (status.Rejected? ==> t == s.(buffer := Null))
      && (status.Closing? ==> t == s.(buffer := Close, close := ClosePacket(p.sessionId, false, ClosedOp)))
      && (status.NoStatus? || status.Error? ==> t == s)
  {
  }

  /** Data of packet `n` when `k` packets have been taken: the next one is taken whole, from behind the header on, and
      acknowledged; one from ahead has the next one asked for; one from behind has the last one acknowledged again;
      always in the session of the packet. */
  lemma DataMeans(s: State, p: Incoming, k: nat, n: nat)
    requires !s.buffer.Close? && p.ackreq && s.last == k % REMOTE_IDS && p.remoteId % REMOTE_IDS == n % REMOTE_IDS
    requires n > 0 && -16385 <= Lead(k, n) <= 16382
    ensures var (t, status) := Parsed(s, p);
      if n == k + 1 then
        status.Write? && t.last == n % REMOTE_IDS && t.buffer.Ack? && t.ack == IdPacket(p.sessionId, p.remoteId)
        && t.readLen == p.len && t.next == 12
      else
        status.WriteOnly? && t.last == s.last && t.readLen == s.readLen && t.next == s.next
        && if n > k then t.buffer.RetxReq? && t.retx == IdPacket(p.sessionId, (k + 1) % REMOTE_IDS)
           else t.buffer.Ack? && t.ack == IdPacket(p.sessionId, k % REMOTE_IDS)
  {
    VerdictIsTrueOrder(k, n);
  }

  predicate SaysClosed(p: Incoming) {
    p.syn && p.opcode.ClosedOp?
  }

  predicate WantsToClose(p: Incoming) {
    p.syn && p.opcode.ClosingOp?
  }

  /** Whatever arrives while a connection is closing, in any order: it is told to be closed by closed answers and by
      nothing else; it goes on sending its request, flagged as repeated, unless the last packet shows that the other
      side wants to close too, in which case it agrees; and what it sends names the session that it heard from last,
      closed answers aside. */
  lemma {:induction false} ClosingRepeats(s: State, packets: seq<Incoming>)
    requires s.buffer.Close?
    ensures var (t, statuses) := ParsedAll(s, packets); var n := |packets|;
      && |statuses| == n && (forall i :: 0 <= i < n ==> (statuses[i].Closed? <==> SaysClosed(packets[i])))
      && (n > 0 ==> if WantsToClose(packets[n - 1]) then t.close.opcode.ClosedOp? && !t.close.retx
                    else t.close.opcode.ClosingOp? && t.close.retx)
      && (forall i :: 0 <= i < n && !SaysClosed(packets[i]) && (forall j :: i < j < n ==> SaysClosed(packets[j])) ==>
            t.close.sessionId == packets[i].sessionId)
      && ((forall j :: 0 <= j < n ==> SaysClosed(packets[j])) ==> t.close.sessionId == s.close.sessionId)
    decreases |packets|
  {
    if packets != [] {
      var (t, status) := Parsed(s, packets[0]);
      ClosingRepeats(t, packets[1..]);
    }
  }

  /** Once a connection is closing nothing but a repeated opening revives it: no payload is processed and
      its place in the sequence does not move. */
  lemma {:induction false} ClosingIsFinal(s: State, packets: seq<Incoming>)
    requires s.buffer.Close?
    ensures var (t, statuses) := ParsedAll(s, packets);
      t.buffer.Close? && t.last == s.last && forall i :: 0 <= i < |statuses| ==> statuses[i] in {Closed, WriteOnly}
    decreases |packets|
  {
    if packets != [] {
      var (t, status) := Parsed(s, packets[0]);
      ClosingIsFinal(t, packets[1..]);
    }
  }

  function ParsedAll(s: State, packets: seq<Incoming>): (State, seq<Status>)
    decreases |packets|
  {
    if packets == [] then (s, [])
    else
      var (t, status) := Parsed(s, packets[0]);
      var (u, statuses) := ParsedAll(t, packets[1..]);
      (u, [status] + statuses)
  }
}
