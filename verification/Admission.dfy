/** How many clients are let in: from the start as many as the limit says, and the next one is turned away. */
module Admission {
  import opened ProxyState
  import opened ProxyServer
  import opened SessionLemmas
  import opened Effects
  import opened SoundStates
  import opened Runs
  import opened Handshakes

  /** Clients that ask to be let in, under ids of their own. */
  predicate Requests(events: seq<Event>) {
    && (forall i :: 0 <= i < |events| ==>
          events[i].Received? && IsOpenRequest(events[i].packet) && WellFormed(events[i]))
    && forall i, j :: 0 <= i < j < |events| ==> events[i].packet.sessionId != events[j].packet.sessionId
  }

  /** The first `k` of them have been let in. */
  predicate Seated(events: seq<Event>, s: Snapshot, k: nat) {
    && k <= |events| && Requests(events) && |s.sessions| == s.sessionIdLast == k && !s.shutting
    && forall i :: 0 <= i < k ==>
         s.sessions[i].wireId == events[i].packet.sessionId && s.sessions[i].id == 0x8001 + i
         && s.sessions[i].peer == events[i].peer
  }

  /** The next client is not known yet, and the next server id is free: nothing trips. */
  lemma NextIsUnknown(events: seq<Event>, s: Snapshot, k: nat, t: Snapshot)
    requires s.Sound() && Seated(events, s, k) && k < |events| && k <= s.limit
    ensures Asks(events[k], s) && !Trips(events[k], s, t)
  {
    hide Snapshot.Sound;
    SoundLimit(s);
    UnusedId(s, events[k].packet.sessionId);
    if k < s.limit { UnusedId(s, 0x8001 + k); }
  }

  lemma NextIsSeated(events: seq<Event>, s: Snapshot, t: Snapshot, k: nat)
    requires s.Sound() && Seated(events, s, k) && k < |events| && k < s.limit && Effect(events[k], s, t)
    ensures Seated(events, t, k + 1) && t.limit == s.limit
    ensures t.sent == s.sent + [Data(events[k].peer, events[k].packet.sessionId, 0, Accept(k + 1))]
  {
    hide Snapshot.Sound, Trips;
    SoundLimit(s);
    NextIsUnknown(events, s, k, s);
    LetInExactlyWhen(events[k], s, t);
    StaysOpen(events[k], s, t);
    hide Effect;
    forall i | 0 <= i < k
      ensures t.sessions[i] == s.sessions[i]
    {
      assert t.sessions[i] == t.sessions[..|s.sessions|][i];
    }
  }

  lemma StaysOpen(e: Event, s: Snapshot, t: Snapshot)
    requires Asks(e, s) && Effect(e, s, t)
    ensures t.limit == s.limit && t.shutting == s.shutting
  {
    hide Opened, NewPacket;
  }

  /** After `k` requests there are `k` sessions, as long as that is no more than the limit. */
  lemma {:induction false} PlacesTaken(events: seq<Event>, handled: nat, trace: seq<Snapshot>, limit: nat, k: nat)
    requires Traced(events, handled, trace) && Requests(events) && k <= handled && k <= limit
    requires trace[0].sessions == [] && trace[0].sessionIdLast == 0 && !trace[0].shutting && trace[0].limit == limit
    ensures Seated(events, trace[k], k) && trace[k].limit == limit
  {
    hide Snapshot.Sound, Effect, Trips;
    if k > 0 {
      PlacesTaken(events, handled, trace, limit, k - 1);
      assert Effect(events[k - 1], trace[k - 1], trace[k - 1 + 1]);
      NextIsSeated(events, trace[k - 1], trace[k], k - 1);
    }
  }

  /** None of the requests trips an assertion, and the one after the last free place is turned away. */
  lemma OneTooMany(events: seq<Event>, handled: nat, trace: seq<Snapshot>, limit: nat, last: Snapshot)
    requires Traced(events, handled, trace) && Requests(events) && |events| == limit + 1
    requires trace[0].sessions == [] && trace[0].sessionIdLast == 0 && !trace[0].shutting && trace[0].limit == limit
    requires handled < |events| ==> Tripped(events[handled], trace[handled], last)
    ensures handled == limit + 1 && Seated(events, trace[limit], limit)
    ensures trace[handled] == trace[limit].(
      sent := trace[limit].sent + [Reject(events[limit].peer, events[limit].packet.sessionId)])
  {
    hide Snapshot.Sound, Effect, Trips, Seated;
    if handled <= limit {
      PlacesTaken(events, handled, trace, limit, handled);
      NextIsUnknown(events, trace[handled], handled, last);
      assert false;
    }
    PlacesTaken(events, handled, trace, limit, limit);
    assert Effect(events[limit], trace[limit], trace[limit + 1]);
    LastIsTurnedAway(events, trace[limit], trace[handled], limit);
  }

  lemma LastIsTurnedAway(events: seq<Event>, s: Snapshot, t: Snapshot, k: nat)
    requires s.Sound() && Seated(events, s, k) && k < |events| && k == s.limit && Effect(events[k], s, t)
    ensures t == s.(sent := s.sent + [Reject(events[k].peer, events[k].packet.sessionId)])
  {
    hide Snapshot.Sound, Effect, Trips;
    NextIsUnknown(events, s, k, s);
    LetInExactlyWhen(events[k], s, t);
  }

  /** The server itself, with a limit of its own: that many clients are let in, and one more is rejected. */
  method FillUp(limit: nat, delay: nat, interval: nat, chunks: seq<CommandList>, events: seq<Event>)
    returns (server: Server)
    requires limit < 0x7fff && 0 < delay < interval < ID_COUNT && 1 <= |chunks| < 0x100
    requires Requests(events) && |events| == limit + 1
    ensures server.Valid() && |server.sessions| == limit
    ensures forall i :: 0 <= i < limit ==> server.sessions[i].wireId == events[i].packet.sessionId
    ensures server.sent != []
    ensures server.sent[|server.sent| - 1] == Reject(events[limit].peer, events[limit].packet.sessionId)
  {
    hide Server.Inv, Server.Logged, Traced, Tripped;
    ghost var trace;
    var handled;
    server, handled, trace := RunFromStart(limit, delay, interval, chunks, events);
    TraceIs(events, handled, trace);
    OneTooMany(events, handled, trace, limit, Now(server));
  }

  lemma TraceIs(events: seq<Event>, handled: nat, trace: seq<Snapshot>)
    requires Traced(events, handled, trace)
    ensures |trace| == handled + 1
  {
    hide Snapshot.Sound, Effect, Trips;
  }
}
