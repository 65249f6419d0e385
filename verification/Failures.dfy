/** States in which the program's own assertions and checks fail, and how they come about. */
module Failures {
  import opened Basics
  import opened IndexSet
  import opened ProxyState
  import opened ProxyServer
  import opened ChainLemmas
  import opened JoinLemmas
  import opened History
  import opened Effects
  import opened SoundStates
  import opened Assertions
  import opened Reception

  // ---------------------------------------------------------------- closing the server

  /** Closing requests are owed by one session each. */
  ghost predicate ClosingsUnshared(s: Snapshot) {
    forall p :: p in s.states && s.states[p].closing ==> p in s.bodies && s.bodies[p].remaining == 1
  }

  /** The session that owes link `i` of a chain. */
  lemma OwnerOfLink(s: Snapshot, o: nat, i: nat) returns (j: nat)
    requires s.Sound() && o in s.chains && i < |s.chains[o]|
    ensures j < |s.sessions| && s.sessions[j].id == o
    ensures SessionOk(s.states, s.bodies, s.chains, {}, s.sessions[j], j < s.connected)
  {
    hide QueueOk, PacketsOk, TableOk, SessionOk, Recorded;
    j :| 0 <= j < |s.sessions| && s.sessions[j].id == o;
  }

  /** A link to a closing request is all that its session owes, and the session is not connected. */
  lemma ClosingLink(s: Snapshot, o: nat, i: nat) returns (j: nat)
    requires s.Sound() && o in s.chains && i < |s.chains[o]|
    requires var p := s.chains[o][i].packet; p in s.states && s.states[p].closing
    ensures s.connected <= j < |s.sessions| && s.sessions[j].id == o && s.sessions[j].head == s.chains[o][i]
  {
    hide Snapshot.Sound, Linked, Consecutive;
    j := OwnerOfLink(s, o, i);
  }

  /** What an unconnected session is made of. */
  lemma UnconnectedHead(s: Snapshot, i: nat)
    requires s.Sound() && s.connected <= i < |s.sessions|
    ensures var p := s.sessions[i].head.packet;
      && p in s.states && p in s.bodies && 0 < s.bodies[p].remaining
      && (!s.states[p].closing ==> s.bodies[p].remaining == 1)
  {
    hide QueueOk, TableOk, ChainKeysOk, Recorded, OrderOk, BirthsOk, ChainsOk, Linked, RefsOk;
    assert SessionOk(s.states, s.bodies, s.chains, {}, s.sessions[i], false);
    HeadBody(s, i);
  }

  lemma HeadBody(s: Snapshot, i: nat)
    requires s.Sound() && s.connected <= i < |s.sessions|
    ensures var p := s.sessions[i].head.packet;
      p in s.states && p in s.bodies && 0 < s.bodies[p].remaining <= |s.bodies[p].slots|
  {
    hide QueueOk, TableOk, ChainKeysOk, Recorded, OrderOk, BirthsOk, ChainsOk, Linked;
    assert SessionOk(s.states, s.bodies, s.chains, {}, s.sessions[i], false);
    LinkOwed(s.bodies, s.chains, s.sessions[i].id, 0);
  }

  /** Closing the server asserts that sessions which are not connected share their packets with nobody.
      That holds exactly as long as no closing request is owed by two sessions. */
  lemma UnsharedExactlyWhen(s: Snapshot)
    requires s.Sound()
    ensures Unshared(s.bodies, s.sessions, s.connected) <==> ClosingsUnshared(s)
  {
    hide Snapshot.Sound;
    forall i | s.connected <= i < |s.sessions|
      ensures var p := s.sessions[i].head.packet;
        && p in s.states && p in s.bodies && (!s.states[p].closing ==> s.bodies[p].remaining == 1)
    {
      UnconnectedHead(s, i);
    }
    forall p | p in s.states && s.states[p].closing
      ensures Unshared(s.bodies, s.sessions, s.connected) ==> p in s.bodies && s.bodies[p].remaining == 1
    {
      SoundKeys(s);
      var o, i := OwnedLink(s, p);
      var j := ClosingLink(s, o, i);
    }
  }

  /** It fails once the timer has given up on a packet that two sessions still owe: they are left sharing
      the closing request. */
  lemma ClosingAfterSharedTimeout(s: Snapshot, t: Snapshot, now: Timespec, later: Timespec, u: Snapshot)
    requires s.Sound() && t.Sound() && Firing(s, t, now)
    requires var p := s.queue[0]; s.states[p].resends == 0 && !s.states[p].closing && s.bodies[p].remaining >= 2
    ensures Trips(Shutdown(later), t, u)
  {
    hide Snapshot.Sound;
    UnsharedExactlyWhen(t);
  }

  /** The assertion that an empty queue has no tail fails once the timer has terminated the sessions of the
      last packet, as long as there is a session that owed nothing. */
  lemma ClosingAfterLastTermination(s: Snapshot, t: Snapshot, now: Timespec, later: Timespec, i: nat,
                                    u: Snapshot)
    requires s.Sound() && t.Sound() && Firing(s, t, now)
    requires |s.queue| == 1 && s.states[s.queue[0]].resends == 0 && s.states[s.queue[0]].closing
    requires i < |s.sessions| && s.sessions[i].id in s.chains && s.chains[s.sessions[i].id] == []
    ensures t.queue == [] && t.tail == s.queue[0] != NULL && Trips(Shutdown(later), t, u)
  {
    hide Snapshot.Sound, IndexOk;
    StillThere(s, t, now, s.sessions[i].id);
  }

  lemma StillThere(s: Snapshot, t: Snapshot, now: Timespec, o: nat)
    requires s.Sound() && t.Sound() && Firing(s, t, now)
    requires |s.queue| == 1 && s.states[s.queue[0]].resends == 0 && s.states[s.queue[0]].closing
    requires o in s.chains && s.chains[o] == []
    ensures t.sessions != []
  {
    hide QueueOk, TableOk, SessionsOk, Recorded, PacketsOk, IndexOk;
    NotAnOwner(s, s.queue[0], o);
    assert o in t.chains;
    var j :| 0 <= j < |t.sessions| && t.sessions[j].id == o;
  }

  lemma NotAnOwner(s: Snapshot, p: Addr, o: nat)
    requires s.Sound() && p in s.bodies && o in s.chains && s.chains[o] == []
    ensures IndexOk(s.bodies[p]) && o !in OwnersBelow(s.bodies[p], s.bodies[p].remaining)
  {
    hide QueueOk, TableOk, SessionsOk, ChainKeysOk, Recorded, OrderOk, BirthsOk, ChainsOk;
    var b := s.bodies[p];
    forall j: nat | j < b.remaining
      ensures b.slots[IndexAt(b, j)].owner != o
    {
      EnumeratesOwed(b, IndexAt(b, j));
      assert Owed(s.bodies, NULL, {}, p, IndexAt(b, j));
    }
  }

  // ---------------------------------------------------------------- the check of the chains

  /** A push lengthens the chain of a connected session and moves its remote id on. */
  lemma PushedOn(s: Snapshot, t: Snapshot, payload: Payload, stamp: Timespec, i: nat)
    requires Pushes(s, t, payload, stamp) && i < s.connected && i < |s.sessions| && s.sessions[i].id in s.chains
    ensures t.connected == s.connected && i < |t.sessions| && t.sessions[i].id == s.sessions[i].id
    ensures t.sessions[i].id in t.chains
    ensures t.sessions[i].remoteId == (s.sessions[i].remoteId + 1) % REMOTE_IDS
    ensures |t.chains[t.sessions[i].id]| == |s.chains[s.sessions[i].id]| + 1
  {
    hide Reached, Pushed, PushDatagrams;
    var p := t.queue[|t.queue| - 1];
    ReachedKeys(s.connected, p, s.sessions, s.chains, t.sessions, t.chains);
    ReachedChain(s.connected, p, s.sessions, s.chains, t.sessions, t.chains, i);
    ReachedSession(s.connected, p, s.sessions, s.chains, t.sessions, t.chains, i);
  }

  /** The run-time check of a connected session fails after a push that takes its remote id past 0x7fff
      while it still owes something. */
  method CheckAfterWrap(server: Server, i: nat, payload: CommandList, now: Timespec) returns (ok: bool)
    requires server.Valid() && i < server.connected && i < |server.sessions|
    requires server.sessions[i].id in server.chains && server.chains[server.sessions[i].id] != []
    requires server.sessions[i].remoteId == 0x7fff
    modifies server
    ensures server.Valid() && !ok
  {
    hide Server.Inv, Server.Logged, Pushes;
    ghost var s := Now(server);
    Push(server, payload, now);
    PushedOn(s, Now(server), payload, now, i);
    ok := CheckConnected(server, i);
  }

  /** The check that the queue is in the order in which its packets are due can fail: a ping gets the time at
      which it is queued, but a packet that is sent again in the same run of the timer gets the earlier time
      at which that run started, and comes behind it. */
  lemma StampsOutOfOrder(s: Snapshot, u: Snapshot, t: Snapshot, now: Timespec, later: Timespec, at: Timespec)
    requires s.queue != [] && Pushes(s, u, Ping, later) && Firing(u, t, now) && u.states[u.queue[0]].resends > 0
    requires s.queue[0] in s.states
    requires later.sec == now.sec && later.nsec >= now.nsec + 2000000
    ensures |t.queue| >= 2 && !StampOk(t.queue, |t.queue| - 1, t.states, t.delay, at)
  {
    hide Reached, PushDatagrams, Pushed, Handled, Descends;
    var p := u.queue[|u.queue| - 1];
    assert u.queue[0] == s.queue[0] != p;
    assert t.queue[|t.queue| - 2] == p && t.queue[|t.queue| - 1] == s.queue[0];
  }
}
