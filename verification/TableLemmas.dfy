/** The session array and the lookup table through every move of a session record. */
module TableLemmas {
  import opened ProxyState

  function Swapped(s: seq<Session>, i: nat, j: nat): (r: seq<Session>)
    requires i < |s| && j < |s|
    ensures |r| == |s|
  {
    s[i := s[j]][j := s[i]]
  }

  function SwappedLookup(s: seq<Session>, l: seq<int>, i: nat, j: nat): seq<int>
    requires i < |s| && j < |s| && s[i].id < |l| && s[j].id < |l|
  {
    l[s[j].id := i + 1][s[i].id := j + 1]
  }

  /** The array after record `i` was overwritten by the last one. */
  function Vacated(s: seq<Session>, i: nat): seq<Session>
    requires i < |s|
  {
    s[i := s[|s| - 1]][..|s| - 1]
  }

  /** The array after connected record `i` was overwritten by the last connected one, and that by the
      last of all. */
  function VacatedTwice(s: seq<Session>, connected: nat, i: nat): seq<Session>
    requires i < connected <= |s|
  {
    Vacated(s[i := s[connected - 1]], connected - 1)
  }

  function VacatedTwiceLookup(s: seq<Session>, connected: nat, l: seq<int>, i: nat): seq<int>
    requires i < connected <= |s| && s[connected - 1].id < |l|
    requires var last := if |s| - 1 == i then connected - 1 else |s| - 1; s[last].id < |l| && s[last].wireId < |l|
  {
    VacatedLookup(s[i := s[connected - 1]], if i == connected - 1 then l else l[s[connected - 1].id := i + 1],
                  connected - 1)
  }

  function VacatedLookup(s: seq<Session>, l: seq<int>, i: nat): seq<int>
    requires i < |s| && s[|s| - 1].id < |l| && s[|s| - 1].wireId < |l|
  {
    if i == |s| - 1 then l else l[s[|s| - 1].id := i + 1][s[|s| - 1].wireId := i + 1]
  }

  lemma RecordIds(s: seq<Session>, connected: nat, l: seq<int>, i: nat)
    requires TableOk(s, connected, l) && i < |s|
    ensures IdsOk(s[i], i, i < connected, l) && s[i].id < |l| && s[i].wireId < |l|
  {
  }

  /** Completing an opening handshake: the record moves to the end of the connected prefix, and the
      client's own id is forgotten. */
  lemma Connected(s: seq<Session>, connected: nat, l: seq<int>, i: nat)
    requires TableOk(s, connected, l) && connected <= i < |s| && s[i].wireId != s[i].id
    ensures s[i].id < |l| && s[i].wireId < |l| && s[connected].id < |l| && s[connected].wireId < |l|
    ensures var l1 := if i == connected then l else SwappedLookup(s, l, i, connected)[s[connected].wireId := i + 1];
      TableOk(Swapped(s, i, connected)[connected := s[i].(wireId := s[i].id)], connected + 1, l1[s[i].wireId := 0])
  {
    assert IdsOk(s[i], i, false, l) && IdsOk(s[connected], connected, false, l);
    if i == connected {
      HandshakeDropped(s, connected, l, i);
      assert Swapped(s, i, connected)[connected := s[i].(wireId := s[i].id)] == s[i := s[i].(wireId := s[i].id)];
    } else {
      ConnectedElsewhere(s, connected, l, i);
    }
  }

  lemma ConnectedElsewhere(s: seq<Session>, connected: nat, l: seq<int>, i: nat)
    requires TableOk(s, connected, l) && connected < i < |s| && s[i].wireId != s[i].id
    ensures s[i].id < |l| && s[i].wireId < |l| && s[connected].id < |l| && s[connected].wireId < |l|
    ensures TableOk(Swapped(s, i, connected)[connected := s[i].(wireId := s[i].id)], connected + 1,
                    SwappedLookup(s, l, i, connected)[s[connected].wireId := i + 1][s[i].wireId := 0])
  {
    var l2 := SwappedLookup(s, l, i, connected)[s[connected].wireId := i + 1][s[i].wireId := 0];
    assert forall id: nat {:trigger Registered(l2, id)} :: Registered(l2, id) ==> Registered(l, id);
  }

  /** A connected session leaves the connected prefix. */
  lemma Disconnected(s: seq<Session>, connected: nat, l: seq<int>, i: nat)
    requires TableOk(s, connected, l) && i < connected
    ensures s[i].id < |l| && s[connected - 1].id < |l|
    ensures TableOk(Swapped(s, i, connected - 1), connected - 1,
                    if i == connected - 1 then l else SwappedLookup(s, l, i, connected - 1))
  {
    assert IdsOk(s[i], i, true, l) && IdsOk(s[connected - 1], connected - 1, true, l);
    if i == connected - 1 {
      assert Swapped(s, i, i) == s;
    } else {
      DisconnectedElsewhere(s, connected, l, i);
    }
  }

  lemma DisconnectedElsewhere(s: seq<Session>, connected: nat, l: seq<int>, i: nat)
    requires TableOk(s, connected, l) && i < connected - 1
    ensures s[i].id < |l| && s[connected - 1].id < |l|
    ensures TableOk(Swapped(s, i, connected - 1), connected - 1, SwappedLookup(s, l, i, connected - 1))
  {
    var l1 := SwappedLookup(s, l, i, connected - 1);
    assert forall id: nat {:trigger Registered(l1, id)} :: Registered(l1, id) ==> Registered(l, id);
  }

  /** A session gives up its opening handshake. */
  lemma HandshakeDropped(s: seq<Session>, connected: nat, l: seq<int>, i: nat)
    requires TableOk(s, connected, l) && connected <= i < |s| && s[i].wireId != s[i].id
    ensures s[i].wireId < |l|
    ensures TableOk(s[i := s[i].(wireId := s[i].id)], connected, l[s[i].wireId := 0])
  {
    var l1 := l[s[i].wireId := 0];
    assert forall id: nat {:trigger Registered(l1, id)} :: Registered(l1, id) ==> Registered(l, id);
  }

  /** One registered id, after record `i` was removed and the last record took its place. */
  lemma RemovedId(s: seq<Session>, connected: nat, l: seq<int>, i: nat, id: nat)
    requires TableOk(s, connected, l) && connected <= i < |s| && id < |l|
    ensures s[i].id < |l| && s[i].wireId < |l| && s[|s| - 1].id < |l| && s[|s| - 1].wireId < |l|
    ensures var l1 := VacatedLookup(s, l[s[i].id := 0], i)[s[i].wireId := 0];
      l1[id] == if id == s[i].id || id == s[i].wireId then 0 else if l[id] == |s| then i + 1 else l[id]
    ensures Registered(l, id) ==>
      1 <= l[id] <= |s| && (s[l[id] - 1].id == id || s[l[id] - 1].wireId == id)
    ensures l[id] == i + 1 ==> id == s[i].id || id == s[i].wireId
  {
    assert IdsOk(s[i], i, false, l) && IdsOk(s[|s| - 1], |s| - 1, |s| - 1 < connected, l);
    assert l[id] != 0 ==> Registered(l, id);
  }

  /** An entry of the table leads to a record that has the id. */
  ghost predicate Leads(s: seq<Session>, l: seq<int>, id: nat) {
    id < |l| && 1 <= l[id] <= |s| && (s[l[id] - 1].id == id || s[l[id] - 1].wireId == id)
  }

  lemma IsTable(s: seq<Session>, connected: nat, l: seq<int>)
    requires |l| == ID_COUNT && connected <= |s|
    requires forall j :: 0 <= j < |s| ==> IdsOk(s[j], j, j < connected, l)
    requires forall id: nat :: Registered(l, id) ==> Leads(s, l, id)
    ensures TableOk(s, connected, l)
  {
    hide IdsOk;
  }

  lemma RemovedRecord(s: seq<Session>, connected: nat, l: seq<int>, i: nat, j: nat)
    requires TableOk(s, connected, l) && connected <= i < |s| && j < |s| - 1
    ensures s[i].id < |l| && s[i].wireId < |l| && s[|s| - 1].id < |l| && s[|s| - 1].wireId < |l|
    ensures |Vacated(s, i)| == |s| - 1
    ensures IdsOk(Vacated(s, i)[j], j, j < connected, VacatedLookup(s, l[s[i].id := 0], i)[s[i].wireId := 0])
  {
    assert IdsOk(s[i], i, false, l) && IdsOk(s[|s| - 1], |s| - 1, |s| - 1 < connected, l);
    var k := if j == i then |s| - 1 else j;
    assert Vacated(s, i)[j] == s[k] && IdsOk(s[k], k, k < connected, l);
    RemovedId(s, connected, l, i, s[k].id);
    RemovedId(s, connected, l, i, s[k].wireId);
  }

  lemma RemovedEntry(s: seq<Session>, connected: nat, l: seq<int>, i: nat, id: nat)
    requires TableOk(s, connected, l) && connected <= i < |s|
    ensures s[i].id < |l| && s[i].wireId < |l| && s[|s| - 1].id < |l| && s[|s| - 1].wireId < |l|
    ensures |Vacated(s, i)| == |s| - 1 >= connected
    ensures s[i].wireId < |VacatedLookup(s, l[s[i].id := 0], i)| == ID_COUNT
    ensures var l1 := VacatedLookup(s, l[s[i].id := 0], i)[s[i].wireId := 0]; var s1 := Vacated(s, i);
      Registered(l1, id) ==> Leads(s1, l1, id)
  {
    assert IdsOk(s[i], i, false, l) && IdsOk(s[|s| - 1], |s| - 1, |s| - 1 < connected, l);
    if id < |l| {
      RemovedId(s, connected, l, i, id);
      assert Registered(l, id) <==> l[id] != 0;
    }
  }

  /** A session outside the connected prefix is removed, and the last record takes its place. */
  lemma Removed(s: seq<Session>, connected: nat, l: seq<int>, i: nat)
    requires TableOk(s, connected, l) && connected <= i < |s|
    ensures s[i].id < |l| && s[i].wireId < |l| && s[|s| - 1].id < |l| && s[|s| - 1].wireId < |l|
    ensures TableOk(Vacated(s, i), connected, VacatedLookup(s, l[s[i].id := 0], i)[s[i].wireId := 0])
  {
    RemovedEntry(s, connected, l, i, 0);
    var l1 := VacatedLookup(s, l[s[i].id := 0], i)[s[i].wireId := 0];
    var s1 := Vacated(s, i);
    hide IdsOk, Vacated, VacatedLookup, TableOk, Registered;
    forall j | 0 <= j < |s1|
      ensures IdsOk(s1[j], j, j < connected, l1)
    {
      RemovedRecord(s, connected, l, i, j);
    }
    forall id: nat | Registered(l1, id)
      ensures Leads(s1, l1, id)
    {
      RemovedEntry(s, connected, l, i, id);
    }
    IsTable(s1, connected, l1);
  }

  /** A session with a single id needs only that one cleared. */
  lemma RemovedOnce(s: seq<Session>, connected: nat, l: seq<int>, i: nat)
    requires TableOk(s, connected, l) && connected <= i < |s| && s[i].wireId == s[i].id
    ensures s[i].id < |l| && s[|s| - 1].id < |l| && s[|s| - 1].wireId < |l|
    ensures TableOk(Vacated(s, i), connected, VacatedLookup(s, l[s[i].id := 0], i))
  {
    hide TableOk;
    RecordIds(s, connected, l, i);
    RecordIds(s, connected, l, |s| - 1);
    Removed(s, connected, l, i);
    assert VacatedLookup(s, l[s[i].id := 0], i)[s[i].id := 0] == VacatedLookup(s, l[s[i].id := 0], i);
  }

  /** A connected session is removed: the last connected record takes its place, and the last record
      of all takes the place of that one. */
  lemma ConnectedRemoved(s: seq<Session>, connected: nat, l: seq<int>, i: nat)
    requires TableOk(s, connected, l) && i < connected <= |s|
    ensures s[i].id < |l| && s[connected - 1].id < |l| && s[connected - 1].wireId < |l|
    ensures s[|s| - 1].id < |l| && s[|s| - 1].wireId < |l|
    ensures TableOk(VacatedTwice(s, connected, i), connected - 1, VacatedTwiceLookup(s, connected, l[s[i].id := 0], i))
  {
    // The same as disconnecting the session first and removing it then.
    hide TableOk;
    var c := connected - 1;
    RecordIds(s, connected, l, i);
    RecordIds(s, connected, l, c);
    RecordIds(s, connected, l, |s| - 1);
    Disconnected(s, connected, l, i);
    var s2 := Swapped(s, i, c);
    var l2 := if i == c then l else SwappedLookup(s, l, i, c);
    Removed(s2, c, l2, c);
    var s1 := s[i := s[c]];
    var l1 := if i == c then l[s[i].id := 0] else l[s[i].id := 0][s[c].id := i + 1];
    assert Vacated(s1, c) == Vacated(s2, c);
    assert l1 == l2[s[i].id := 0];
    assert VacatedLookup(s1, l1, c)[s[i].id := 0] == VacatedLookup(s1, l1, c);
  }

  /** A new session is registered under both of its ids. */
  lemma Added(s: seq<Session>, connected: nat, l: seq<int>, added: Session)
    requires TableOk(s, connected, l)
    requires SERVER_ID <= added.id < ID_COUNT && l[added.id] == 0
    requires added.wireId < SERVER_ID && l[added.wireId] == 0
    ensures TableOk(s + [added], connected, l[added.wireId := |s| + 1][added.id := |s| + 1])
  {
    var l1 := l[added.wireId := |s| + 1][added.id := |s| + 1];
    assert forall id: nat {:trigger Registered(l1, id)} :: Registered(l1, id) ==>
      Registered(l, id) || id == added.wireId || id == added.id;
    assert !Registered(l, added.wireId) && !Registered(l, added.id);
  }

  /** Sessions that are all known by their server ids only may as well not be connected. */
  lemma NobodyConnected(s: seq<Session>, connected: nat, l: seq<int>)
    requires TableOk(s, connected, l) && forall i :: 0 <= i < |s| ==> s[i].wireId == s[i].id
    ensures TableOk(s, 0, l)
  {
  }

  lemma ConnectedIds(s: seq<Session>, connected: nat, l: seq<int>)
    requires TableOk(s, connected, l)
    ensures forall i :: 0 <= i < connected ==> s[i].wireId == s[i].id
  {
  }
}
