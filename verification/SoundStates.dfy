/** What the invariant says about the queue, the records, the ids and the chains of a server between two events. */
module SoundStates {
  import opened Basics
  import opened IndexSet
  import opened ProxyState
  import opened QueueLemmas
  import opened SessionLemmas
  import opened TableLemmas
  import opened History
  import opened Draining
  import opened ProxyServer
  import opened Effects

  lemma SoundQueue(s: Snapshot)
    requires s.Sound()
    ensures QueueIn(s.queue, s.states)
    ensures forall i :: 0 <= i < |s.queue| ==> s.queue[i] in s.states && s.states[s.queue[i]].resends <= RESENDS
  {
    hide SessionsOk, ChainKeysOk, TableOk, RefsOk, History.Recorded;
  }

  lemma SoundDistinct(s: Snapshot)
    requires s.Sound()
    ensures Distinct(s.queue)
  {
    hide PacketsOk, TableOk, SessionsOk, ChainKeysOk, Recorded;
  }

  lemma SoundKeys(s: Snapshot)
    requires s.Sound()
    ensures s.states.Keys == s.bodies.Keys
  {
    hide QueueOk, TableOk, SessionsOk, ChainKeysOk, Recorded, OrderOk, BirthsOk, ChainsOk, RefsOk;
  }

  lemma Queued(s: Snapshot)
    requires s.Sound()
    ensures s.connected <= |s.sessions| && forall a :: a in s.states ==> a in s.queue
  {
    hide QueueOk, SessionsOk, ChainKeysOk, Recorded, OrderOk, BirthsOk, ChainsOk, RefsOk;
  }

  lemma NullFree(s: Snapshot)
    requires s.Sound()
    ensures NULL !in s.states
  {
    hide QueueOk, SessionsOk, ChainKeysOk, TableOk, RefsOk, Recorded, OrderOk;
  }

  lemma SoundDelay(s: Snapshot)
    requires s.Sound()
    ensures 0 < s.delay < ID_COUNT
  {
  }

  lemma RecordWith(s: Snapshot, o: nat) returns (i: nat)
    requires s.Sound() && o in s.chains
    ensures i < |s.sessions| && s.sessions[i].id == o
  {
    hide QueueOk, TableOk, SessionsOk, PacketsOk, Recorded;
    i :| 0 <= i < |s.sessions| && s.sessions[i].id == o;
  }

  lemma OwnedLink(s: Snapshot, p: Addr) returns (o: nat, i: nat)
    requires s.Sound() && p in s.bodies
    ensures o in s.chains && i < |s.chains[o]| && s.chains[o][i].packet == p
  {
    hide QueueOk, TableOk, SessionsOk, ChainKeysOk, Recorded, OrderOk, BirthsOk, ChainsOk;
    var b := s.bodies[p];
    EnumeratesOwed(b, IndexAt(b, 0));
    assert Owed(s.bodies, NULL, {}, p, IndexAt(b, 0));
    o := b.slots[IndexAt(b, 0)].owner;
    i :| 0 <= i < |s.chains[o]| && s.chains[o][i] == Loc(p, IndexAt(b, 0));
  }

  lemma ConnectedLinks(s: Snapshot, i: nat)
    requires s.Sound() && i < s.connected && i < |s.sessions|
    ensures s.sessions[i].id in s.history && s.sessions[i].id in s.chains
    ensures forall x :: 0 <= x < |s.chains[s.sessions[i].id]| ==>
      var p := s.chains[s.sessions[i].id][x].packet; p in s.states && !s.states[p].closing
  {
    hide QueueOk, TableOk, PacketsOk, ChainsLogged, SentLogged, Linked, Consecutive;
    assert SessionOk(s.states, s.bodies, s.chains, {}, s.sessions[i], i < s.connected);
  }

  lemma IdOf(s: Snapshot, i: nat)
    requires s.Sound() && i < |s.sessions|
    ensures s.sessions[i].id < |s.lookup| && s.lookup[s.sessions[i].id] == i + 1
    ensures s.sessions[i].wireId < |s.lookup| && s.lookup[s.sessions[i].wireId] == i + 1
  {
    hide QueueOk, PacketsOk, SessionsOk, ChainKeysOk, Recorded;
    RecordIds(s.sessions, s.connected, s.lookup, i);
  }

  /** An id is not in use if no record has it. */
  lemma UnusedId(s: Snapshot, id: nat)
    requires s.Sound() && id < ID_COUNT
    requires forall i :: 0 <= i < |s.sessions| ==> s.sessions[i].id != id && s.sessions[i].wireId != id
    ensures s.Unused(id)
  {
    hide QueueOk, PacketsOk, SessionsOk, ChainKeysOk, Recorded;
    assert Registered(s.lookup, id) <==> s.lookup[id] != 0;
  }

  lemma IdHigh(s: Snapshot, i: nat)
    requires s.Sound() && i < |s.sessions|
    ensures SERVER_ID <= s.sessions[i].id && s.sessions[i].id in s.chains
  {
    hide QueueOk, PacketsOk, ChainKeysOk, Recorded, Linked, Consecutive;
    assert SessionOk(s.states, s.bodies, s.chains, {}, s.sessions[i], i < s.connected);
  }

  lemma WireId(s: Snapshot, i: nat)
    requires s.Sound() && i < |s.sessions|
    ensures s.sessions[i].wireId == s.sessions[i].id || s.sessions[i].wireId < SERVER_ID
  {
    hide QueueOk, PacketsOk, SessionsOk, ChainKeysOk, Recorded;
    RecordIds(s.sessions, s.connected, s.lookup, i);
  }

  lemma KnownRecord(s: Snapshot, id: nat)
    requires s.Sound() && s.Known(id) && id >= SERVER_ID
    ensures s.SessionOf(id).id == id
  {
    hide QueueOk, PacketsOk, ChainKeysOk, SessionsOk, Recorded;
    assert Registered(s.lookup, id);
    assert IdsOk(s.sessions[s.lookup[id] - 1], s.lookup[id] - 1, s.lookup[id] - 1 < s.connected, s.lookup);
  }

  /** The only record of a session. */
  lemma RecordAt(s: Snapshot, o: nat) returns (i: nat)
    requires s.Sound() && o in s.chains
    ensures i < |s.sessions| && s.sessions[i].id == o && s.Known(o) && s.lookup[o] == i + 1
    ensures forall j :: 0 <= j < |s.sessions| && s.sessions[j].id == o ==> j == i
  {
    hide Snapshot.Sound;
    i := RecordWith(s, o);
    forall j | 0 <= j < |s.sessions|
      ensures s.sessions[j].id < |s.lookup| && s.lookup[s.sessions[j].id] == j + 1
    {
      IdOf(s, j);
    }
  }

  lemma SameNext(s: Snapshot, t: Snapshot, i: nat, remoteId: Word)
    requires i < |s.sessions| && i < |t.sessions| && t.sessions[i].remoteIdLast == s.sessions[i].remoteIdLast
    ensures IsNext(t, i, remoteId) <==> IsNext(s, i, remoteId)
  {
  }

  lemma LengthOfPushes(path: seq<Snapshot>, updates: seq<Update>, now: Timespec)
    requires PushPath(path, updates, now)
    ensures |path| == |updates| + 1
  {
    hide Pushes, Snapshot.Sound;
  }

  lemma FiringKeys(s: Snapshot, t: Snapshot, now: Timespec)
    requires Firing(s, t, now)
    ensures t.chains.Keys <= s.chains.Keys && t.delay == s.delay
  {
    hide Dealt, Descends, Fired;
  }

  lemma SoundLimit(s: Snapshot)
    requires s.Sound()
    ensures |s.sessions| <= s.limit < 0x7fff
  {
    hide QueueOk, PacketsOk, TableOk, SessionsOk, ChainKeysOk, Recorded;
  }
}
