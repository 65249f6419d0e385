/** What the proxy has pushed to its sessions: the ghost record that its queue, its chains and the
    datagrams it sends are measured against. */
module History {
  import opened Basics
  import opened IndexSet
  import opened ProxyState
  import opened JoinLemmas
  import opened TableLemmas
  import opened SessionLemmas

  /** A payload that is pushed to connected sessions, as opposed to a handshake. */
  predicate Ordinary(p: Payload) {
    !IsSyn(p) && Length(p) <= MAX_LEN
  }

  // ---------------------------------------------------------------- what the record says

  /** Link `i` of a chain of `n` links of session `o` leads to a packet with the right payload: a closing
      request; or what was pushed to the session, the last `n` payloads in order; or, if it never was
      connected, its accept response. */
  predicate Carries(o: nat, n: nat, i: nat, state: State, history: map<nat, seq<Payload>>) {
    if state.closing then state.payload == CloseRequest
    else if o in history then i < n <= |history[o]| && state.payload == history[o][|history[o]| - n + i]
    else o >= SERVER_ID && state.payload == Accept(o - SERVER_ID)
  }

  ghost predicate ChainsLogged(states: map<Addr, State>, chains: map<nat, seq<Loc>>, history: map<nat, seq<Payload>>) {
    forall o, i {:trigger chains[o][i]} :: o in chains && 0 <= i < |chains[o]| ==>
      chains[o][i].packet in states && Carries(o, |chains[o]|, i, states[chains[o][i].packet], history)
  }

  /** A connected session has a record, and its remote id counts it; one that is still opening has none. */
  ghost predicate SessionsLogged(sessions: seq<Session>, connected: nat, history: map<nat, seq<Payload>>) {
    && (forall i :: 0 <= i < |sessions| ==>
          && (i < connected ==>
                sessions[i].id in history && sessions[i].remoteId == |history[sessions[i].id]| % REMOTE_IDS)
          && (sessions[i].wireId != sessions[i].id ==> sessions[i].id !in history))
    && (forall o, n :: o in history && 0 <= n < |history[o]| ==> Ordinary(history[o][n]))
  }

  /** The datagram that carries packet `n` of the record `h` of session `s`, counted from 1. */
  predicate IsPacket(d: Datagram, s: Session, h: seq<Payload>, n: nat) {
    1 <= n <= |h| && d == Data(s.peer, s.id, n % REMOTE_IDS, h[n - 1])
  }

  ghost predicate Genuine(d: Datagram, s: Session, history: map<nat, seq<Payload>>) {
    s.id in history && exists n :: IsPacket(d, s, history[s.id], n)
  }

  /** Whatever data has been sent from position `from` on to a connected session was pushed to it. */
  ghost predicate GenuineFrom(sent: seq<Datagram>, from: nat, s: Session, history: map<nat, seq<Payload>>) {
    forall k :: from <= k < |sent| && sent[k].Data? && sent[k].sessionId == s.id ==> Genuine(sent[k], s, history)
  }

  ghost predicate SentLogged(sent: seq<Datagram>, since: map<nat, nat>, sessions: seq<Session>, connected: nat,
                             history: map<nat, seq<Payload>>) {
    forall i :: 0 <= i < connected && i < |sessions| ==>
      sessions[i].id in since && since[sessions[i].id] <= |sent|
        && GenuineFrom(sent, since[sessions[i].id], sessions[i], history)
  }

  /** Chains, sessions and everything that has been sent agree with the record. */
  ghost predicate Recorded(states: map<Addr, State>, chains: map<nat, seq<Loc>>, sessions: seq<Session>, connected: nat,
                           sent: seq<Datagram>, since: map<nat, nat>, history: map<nat, seq<Payload>>) {
    && ChainsLogged(states, chains, history)
    && SessionsLogged(sessions, connected, history)
    && SentLogged(sent, since, sessions, connected, history)
  }

  // ---------------------------------------------------------------- sessions that live on

  /** The same client with the same places in both sequences of packets. */
  predicate SameSession(s: Session, t: Session) {
    s.id == t.id && s.peer == t.peer && s.remoteId == t.remoteId && s.remoteIdLast == t.remoteIdLast
  }

  /** Record `s` goes back to one of the old records: connected before if it is connected now, and
      opening before if it is opening now. */
  ghost predicate GoesBack(s: Session, connected: bool, sessions0: seq<Session>, connected0: nat) {
    exists j :: 0 <= j < |sessions0| && SameSession(sessions0[j], s) && (connected ==> j < connected0)
                && (s.wireId != s.id ==> sessions0[j].wireId != sessions0[j].id)
  }

  ghost predicate Descends(sessions0: seq<Session>, connected0: nat, sessions1: seq<Session>, connected1: nat) {
    forall i :: 0 <= i < |sessions1| ==> GoesBack(sessions1[i], i < connected1, sessions0, connected0)
  }

  lemma DescendsSame(sessions0: seq<Session>, connected: nat, sessions1: seq<Session>)
    requires |sessions1| == |sessions0| && forall i :: 0 <= i < |sessions0| ==>
      SameSession(sessions0[i], sessions1[i]) && (sessions1[i].wireId == sessions0[i].wireId
                                                  || sessions1[i].wireId == sessions1[i].id)
    ensures Descends(sessions0, connected, sessions1, connected)
  {
  }

  lemma DescendsTwice(a: seq<Session>, ca: nat, b: seq<Session>, cb: nat, c: seq<Session>, cc: nat)
    requires Descends(a, ca, b, cb) && Descends(b, cb, c, cc)
    ensures Descends(a, ca, c, cc)
  {
    forall i | 0 <= i < |c|
      ensures GoesBack(c[i], i < cc, a, ca)
    {
      var j :| 0 <= j < |b| && SameSession(b[j], c[i]) && (i < cc ==> j < cb)
        && (c[i].wireId != c[i].id ==> b[j].wireId != b[j].id);
      assert GoesBack(b[j], j < cb, a, ca);
    }
  }

  lemma VacatedDescends(sessions: seq<Session>, connected: nat, i: nat)
    requires connected <= i < |sessions|
    ensures Descends(sessions, connected, Vacated(sessions, i), connected)
  {
    var r := Vacated(sessions, i);
    forall x | 0 <= x < |r|
      ensures GoesBack(r[x], x < connected, sessions, connected)
    {
      assert r[x] == sessions[if x == i then |sessions| - 1 else x];
    }
  }

  lemma VacatedTwiceDescends(sessions: seq<Session>, connected: nat, i: nat)
    requires i < connected <= |sessions|
    ensures Descends(sessions, connected, VacatedTwice(sessions, connected, i), connected - 1)
  {
    var r := VacatedTwice(sessions, connected, i);
    forall x | 0 <= x < |r|
      ensures GoesBack(r[x], x < connected - 1, sessions, connected)
    {
      var y := if x == i && i < connected - 1 then connected - 1 else if x == connected - 1 then |sessions| - 1 else x;
      assert r[x] == sessions[y];
    }
  }

  lemma DroppedDescends(sessions: seq<Session>, connected: nat, i: nat)
    requires i < |sessions| && connected <= |sessions|
    ensures Descends(sessions, connected, DroppedRecords(sessions, connected, i),
                     if i < connected then connected - 1 else connected)
  {
    var r := DroppedRecords(sessions, connected, i);
    var c := if i < connected then connected - 1 else connected;
    forall x | 0 <= x < |r|
      ensures GoesBack(r[x], x < c, sessions, connected)
    {
      var y := if i < connected && x == i then connected - 1 else if i < connected && x == connected - 1 then i else x;
      assert SameSession(sessions[y], r[x]);
    }
  }

  // ---------------------------------------------------------------- what keeps the record right

  /** A link of the new chains that is as good as it was: its packet is a closing request now, or it is
      where it was from the end of its chain and its packet says the same. */
  ghost predicate LinkKept(o: nat, i: nat, states0: map<Addr, State>, chains0: map<nat, seq<Loc>>,
                           states1: map<Addr, State>, chains1: map<nat, seq<Loc>>)
    requires o in chains1 && i < |chains1[o]|
  {
    var c := chains1[o];
    var a := c[i].packet;
    && a in states1
    && ((states1[a].closing && states1[a].payload == CloseRequest)
        || (o in chains0 && |c| <= |chains0[o]| && c[i] == chains0[o][|chains0[o]| - |c| + i]
            && a in states0 && states1[a].closing == states0[a].closing && states1[a].payload == states0[a].payload))
  }

  ghost predicate LinksKept(states0: map<Addr, State>, chains0: map<nat, seq<Loc>>,
                            states1: map<Addr, State>, chains1: map<nat, seq<Loc>>) {
    forall o: nat, i: nat {:trigger chains1[o][i]} {:trigger LinkKept(o, i, states0, chains0, states1, chains1)} ::
      o in chains1 && i < |chains1[o]| ==> LinkKept(o, i, states0, chains0, states1, chains1)
  }

  ghost predicate LinksIn(states: map<Addr, State>, chains: map<nat, seq<Loc>>) {
    forall o, i {:trigger chains[o][i]} :: o in chains && 0 <= i < |chains[o]| ==> chains[o][i].packet in states
  }

  /** Chains that have only been shortened from the front, or forgotten. */
  ghost predicate Shortened(chains0: map<nat, seq<Loc>>, chains1: map<nat, seq<Loc>>) {
    forall o :: o in chains1 ==>
      o in chains0 && |chains1[o]| <= |chains0[o]| && chains1[o] == chains0[o][|chains0[o]| - |chains1[o]|..]
  }

  lemma LinkStays(o: nat, i: nat, states0: map<Addr, State>, chains0: map<nat, seq<Loc>>,
                  states1: map<Addr, State>, chains1: map<nat, seq<Loc>>)
    requires o in chains1 && i < |chains1[o]| && chains1[o][i].packet in states1
    requires o in chains0 && |chains1[o]| <= |chains0[o]| && chains1[o] == chains0[o][|chains0[o]| - |chains1[o]|..]
    requires forall a :: a in states1 ==> a in states0 && SameKind(states0[a], states1[a])
    ensures LinkKept(o, i, states0, chains0, states1, chains1)
  {
  }

  lemma ShortenedKept(states0: map<Addr, State>, chains0: map<nat, seq<Loc>>, states1: map<Addr, State>,
                      chains1: map<nat, seq<Loc>>)
    requires Shortened(chains0, chains1) && LinksIn(states1, chains1)
    requires forall a :: a in states1 ==> a in states0 && SameKind(states0[a], states1[a])
    ensures LinksKept(states0, chains0, states1, chains1)
  {
    forall o: nat, i: nat | o in chains1 && i < |chains1[o]|
      ensures LinkKept(o, i, states0, chains0, states1, chains1)
    {
      LinkStays(o, i, states0, chains0, states1, chains1);
    }
  }

  lemma ReducedToPacket(b: Body, p: Addr, chains0: map<nat, seq<Loc>>, chains1: map<nat, seq<Loc>>, o: nat)
    requires FirstForOwners(b, p, chains0) && IndexOk(b)
    requires Reduced(chains0, OwnersBelow(b, b.remaining), chains1) && o in OwnersBelow(b, b.remaining)
    ensures o in chains1 && |chains1[o]| == 1 && chains1[o][0].packet == p
  {
  }

  lemma NotReduced(chains0: map<nat, seq<Loc>>, dropped: set<nat>, chains1: map<nat, seq<Loc>>, o: nat)
    requires Reduced(chains0, dropped, chains1) && o !in dropped && o in chains1
    ensures o in chains0 && chains1[o] == chains0[o]
  {
  }

  /** Sessions that are dropped keep nothing but the closing request. */
  lemma DroppedKept(b: Body, p: Addr, states0: map<Addr, State>, chains0: map<nat, seq<Loc>>,
                    states1: map<Addr, State>, chains1: map<nat, seq<Loc>>)
    requires FirstForOwners(b, p, chains0) && IndexOk(b)
    requires Reduced(chains0, OwnersBelow(b, b.remaining), chains1) && LinksIn(states1, chains1)
    requires p in states1 && states1[p].closing && states1[p].payload == CloseRequest
    requires forall a :: a in states1 && a != p ==> a in states0 && states1[a] == states0[a]
    ensures LinksKept(states0, chains0, states1, chains1)
  {
    hide FirstForOwners, Reduced, IndexOk, OwnersBelow;
    forall o: nat, i: nat | o in chains1 && i < |chains1[o]|
      ensures LinkKept(o, i, states0, chains0, states1, chains1)
    {
      assert chains1[o][i].packet in states1;
      if o in OwnersBelow(b, b.remaining) {
        ReducedToPacket(b, p, chains0, chains1, o);
      } else {
        NotReduced(chains0, OwnersBelow(b, b.remaining), chains1, o);
      }
    }
  }

  /** The packet says the same. */
  predicate SameKind(s: State, t: State) {
    s.closing == t.closing && s.payload == t.payload
  }

  /** None of the datagrams from position `from` on is data for a connected session. */
  ghost predicate NotToConnected(sent: seq<Datagram>, from: nat, sessions: seq<Session>, connected: nat) {
    forall k, i {:trigger sent[k], sessions[i]} :: from <= k < |sent| && 0 <= i < connected && i < |sessions| ==>
      !sent[k].Data? || sent[k].sessionId != sessions[i].id
  }

  lemma ChainsKept(states0: map<Addr, State>, chains0: map<nat, seq<Loc>>, history: map<nat, seq<Payload>>,
                   states1: map<Addr, State>, chains1: map<nat, seq<Loc>>)
    requires ChainsLogged(states0, chains0, history) && LinksKept(states0, chains0, states1, chains1)
    ensures ChainsLogged(states1, chains1, history)
  {
    forall o, i {:trigger chains1[o][i]} | o in chains1 && 0 <= i < |chains1[o]|
      ensures chains1[o][i].packet in states1 && Carries(o, |chains1[o]|, i, states1[chains1[o][i].packet], history)
    {
      assert LinkKept(o, i, states0, chains0, states1, chains1);
      if !states1[chains1[o][i].packet].closing {
        assert chains0[o][|chains0[o]| - |chains1[o]| + i] == chains1[o][i];
      }
    }
  }

  lemma SessionsKept(sessions0: seq<Session>, connected0: nat, sessions1: seq<Session>, connected1: nat,
                     history: map<nat, seq<Payload>>)
    requires SessionsLogged(sessions0, connected0, history) && Descends(sessions0, connected0, sessions1, connected1)
    ensures SessionsLogged(sessions1, connected1, history)
  {
    forall i | 0 <= i < |sessions1|
      ensures i < connected1 ==>
        sessions1[i].id in history && sessions1[i].remoteId == |history[sessions1[i].id]| % REMOTE_IDS
      ensures sessions1[i].wireId != sessions1[i].id ==> sessions1[i].id !in history
    {
      assert GoesBack(sessions1[i], i < connected1, sessions0, connected0);
    }
  }

  /** The client was connected before. */
  ghost predicate Stays(s: Session, sessions0: seq<Session>, connected0: nat) {
    exists j :: 0 <= j < connected0 && j < |sessions0| && sessions0[j].id == s.id && sessions0[j].peer == s.peer
  }

  /** Records of the connected sessions have only grown. */
  ghost predicate Grown(history0: map<nat, seq<Payload>>, history1: map<nat, seq<Payload>>, sessions: seq<Session>,
                        connected: nat) {
    forall i :: 0 <= i < connected && i < |sessions| && sessions[i].id in history0 ==>
      sessions[i].id in history1 && history0[sessions[i].id] <= history1[sessions[i].id]
  }

  lemma SentKept(sent0: seq<Datagram>, since: map<nat, nat>, sessions0: seq<Session>, connected0: nat,
                 history0: map<nat, seq<Payload>>,
                 sent1: seq<Datagram>, sessions1: seq<Session>, connected1: nat, history1: map<nat, seq<Payload>>)
    requires SentLogged(sent0, since, sessions0, connected0, history0) && sent0 <= sent1
    requires forall i :: 0 <= i < connected1 && i < |sessions1| ==>
      Stays(sessions1[i], sessions0, connected0) && GenuineFrom(sent1, |sent0|, sessions1[i], history1)
    requires Grown(history0, history1, sessions1, connected1)
    ensures SentLogged(sent1, since, sessions1, connected1, history1)
  {
    forall i | 0 <= i < connected1 && i < |sessions1|
      ensures sessions1[i].id in since && since[sessions1[i].id] <= |sent1|
      ensures GenuineFrom(sent1, since[sessions1[i].id], sessions1[i], history1)
    {
      var s := sessions1[i];
      var j :| 0 <= j < connected0 && j < |sessions0| && sessions0[j].id == s.id && sessions0[j].peer == s.peer;
      GenuineLonger(sent0, sent1, since[s.id], sessions0[j], s, history0, history1);
    }
  }

  lemma GenuineLonger(sent0: seq<Datagram>, sent1: seq<Datagram>, from: nat, s: Session, t: Session,
                      history0: map<nat, seq<Payload>>, history1: map<nat, seq<Payload>>)
    requires GenuineFrom(sent0, from, s, history0) && s.id == t.id && s.peer == t.peer
    requires sent0 <= sent1 && GenuineFrom(sent1, |sent0|, t, history1)
    requires t.id in history0 ==> t.id in history1 && history0[t.id] <= history1[t.id]
    ensures GenuineFrom(sent1, from, t, history1)
  {
    forall k | from <= k < |sent1| && sent1[k].Data? && sent1[k].sessionId == t.id
      ensures Genuine(sent1[k], t, history1)
    {
      if k < |sent0| {
        assert sent0[k] == sent1[k] && Genuine(sent0[k], s, history0);
        var n :| IsPacket(sent0[k], s, history0[s.id], n);
        assert IsPacket(sent1[k], t, history1[t.id], n);
      }
    }
  }

  /** Nothing is sent to connected sessions, and they are among those that were connected before. */
  lemma SentNothing(sent0: seq<Datagram>, since: map<nat, nat>, sessions0: seq<Session>, connected0: nat,
                    history: map<nat, seq<Payload>>, sent1: seq<Datagram>, sessions1: seq<Session>, connected1: nat)
    requires SentLogged(sent0, since, sessions0, connected0, history) && sent0 <= sent1
    requires Descends(sessions0, connected0, sessions1, connected1)
    requires NotToConnected(sent1, |sent0|, sessions1, connected1)
    ensures SentLogged(sent1, since, sessions1, connected1, history)
  {
    forall i | 0 <= i < connected1 && i < |sessions1|
      ensures Stays(sessions1[i], sessions0, connected0)
    {
      assert GoesBack(sessions1[i], true, sessions0, connected0);
    }
    SentKept(sent0, since, sessions0, connected0, history, sent1, sessions1, connected1, history);
  }

  // ---------------------------------------------------------------- pushing

  ghost predicate IsConnected(sessions: seq<Session>, connected: nat, o: nat) {
    exists j :: 0 <= j < connected && j < |sessions| && sessions[j].id == o
  }

  /** The records with one more payload for every connected session. */
  ghost function Pushed(history: map<nat, seq<Payload>>, sessions: seq<Session>, connected: nat,
                        payload: Payload): map<nat, seq<Payload>> {
    map o | o in history :: if IsConnected(sessions, connected, o) then history[o] + [payload] else history[o]
  }

  /** Connected sessions owe no closing requests. */
  ghost predicate NoneClosing(states: map<Addr, State>, chains: map<nat, seq<Loc>>, sessions: seq<Session>,
                              connected: nat) {
    forall j, i | 0 <= j < connected && j < |sessions| && sessions[j].id in chains
                  && 0 <= i < |chains[sessions[j].id]| ::
      chains[sessions[j].id][i].packet in states && !states[chains[sessions[j].id][i].packet].closing
  }

  lemma PushedChains(states0: map<Addr, State>, chains0: map<nat, seq<Loc>>, sessions0: seq<Session>, connected: nat,
                     history: map<nat, seq<Payload>>, p: Addr, state: State, chains1: map<nat, seq<Loc>>,
                       sessions1: seq<Session>)
    requires ChainsLogged(states0, chains0, history) && SessionsLogged(sessions0, connected, history)
    requires connected <= |sessions0| && DistinctIds(sessions0) && ChainKeysOk(sessions0, chains0)
    requires Reached(connected, p, sessions0, chains0, sessions1, chains1)
    requires p !in states0 && !state.closing && NoneClosing(states0, chains0, sessions0, connected)
    ensures ChainsLogged(states0[p := state], chains1, Pushed(history, sessions0, connected, state.payload))
  {
    hide Reached, DistinctIds, IsConnected, Carries, NoneClosing, SessionsLogged, Pushed;
    ReachedKeys(connected, p, sessions0, chains0, sessions1, chains1);
    forall o | o in chains1
      ensures ChainLogged(states0[p := state], o, chains1[o], Pushed(history, sessions0, connected, state.payload))
    {
      var j :| 0 <= j < |sessions0| && sessions0[j].id == o;
      ReachedChain(connected, p, sessions0, chains0, sessions1, chains1, j);
      ConnectedAt(sessions0, connected, j);
      PushedAt(history, sessions0, connected, state.payload, j);
      assert ChainLogged(states0, o, chains0[o], history);
      if j < connected {
        OwesNoClosing(states0, chains0, sessions0, connected, j);
        LinkPushed(states0, o, chains0[o], history, p, j, state, Pushed(history, sessions0, connected, state.payload));
      } else {
        LinksStay(states0, o, chains0[o], history, p, state, Pushed(history, sessions0, connected, state.payload));
      }
    }
  }

  ghost predicate ChainLogged(states: map<Addr, State>, o: nat, c: seq<Loc>, history: map<nat, seq<Payload>>) {
    forall i :: 0 <= i < |c| ==> c[i].packet in states && Carries(o, |c|, i, states[c[i].packet], history)
  }

  lemma OwesNoClosing(states: map<Addr, State>, chains: map<nat, seq<Loc>>, sessions: seq<Session>, connected: nat,
                      j: nat)
    requires NoneClosing(states, chains, sessions, connected) && j < connected && j < |sessions|
    requires sessions[j].id in chains
    ensures var c := chains[sessions[j].id]; forall i :: 0 <= i < |c| ==>
      c[i].packet in states && !states[c[i].packet].closing
  {
  }

  /** The record of the session at `j` after a push. */
  lemma PushedAt(history: map<nat, seq<Payload>>, sessions: seq<Session>, connected: nat, payload: Payload, j: nat)
    requires SessionsLogged(sessions, connected, history) && DistinctIds(sessions) && j < |sessions|
    ensures var o := sessions[j].id; var h := Pushed(history, sessions, connected, payload);
      && (o in h <==> o in history) && (j < connected ==> o in history)
      && (o in history ==> h[o] == if j < connected then history[o] + [payload] else history[o])
  {
    ConnectedAt(sessions, connected, j);
  }

  lemma LinkPushed(states: map<Addr, State>, o: nat, c: seq<Loc>, history0: map<nat, seq<Payload>>, p: Addr, k: nat,
                   state: State, history1: map<nat, seq<Payload>>)
    requires ChainLogged(states, o, c, history0) && p !in states && !state.closing
    requires forall i :: 0 <= i < |c| ==> c[i].packet in states && !states[c[i].packet].closing
    requires o in history0 && o in history1 && history1[o] == history0[o] + [state.payload]
    ensures ChainLogged(states[p := state], o, c + [Loc(p, k)], history1)
  {
    if c != [] { assert Carries(o, |c|, 0, states[c[0].packet], history0); }
  }

  lemma LinksStay(states: map<Addr, State>, o: nat, c: seq<Loc>, history0: map<nat, seq<Payload>>, p: Addr,
                  state: State, history1: map<nat, seq<Payload>>)
    requires ChainLogged(states, o, c, history0) && p !in states
    requires o in history1 <==> o in history0
    requires o in history0 ==> history1[o] == history0[o]
    ensures ChainLogged(states[p := state], o, c, history1)
  {
  }

  lemma ReachedKeys(n: nat, p: Addr, sessions0: seq<Session>, chains0: map<nat, seq<Loc>>, sessions1: seq<Session>,
                    chains1: map<nat, seq<Loc>>)
    requires Reached(n, p, sessions0, chains0, sessions1, chains1)
    ensures chains1.Keys == chains0.Keys
  {
  }

  lemma ReachedChain(n: nat, p: Addr, sessions0: seq<Session>, chains0: map<nat, seq<Loc>>, sessions1: seq<Session>,
                     chains1: map<nat, seq<Loc>>, j: nat)
    requires Reached(n, p, sessions0, chains0, sessions1, chains1) && j < |sessions0| && sessions0[j].id in chains1
    ensures var o := sessions0[j].id;
      && o in chains0
      && chains1[o] == if j < n then chains0[o] + [Loc(p, j)] else chains0[o]
  {
  }

  lemma PushedSessions(sessions0: seq<Session>, connected: nat, history: map<nat, seq<Payload>>, p: Addr,
                       payload: Payload,
                       chains0: map<nat, seq<Loc>>, chains1: map<nat, seq<Loc>>, sessions1: seq<Session>)
    requires SessionsLogged(sessions0, connected, history) && connected <= |sessions0| && DistinctIds(sessions0)
    requires Ordinary(payload)
    requires Reached(connected, p, sessions0, chains0, sessions1, chains1)
    ensures SessionsLogged(sessions1, connected, Pushed(history, sessions0, connected, payload))
    ensures Grown(history, Pushed(history, sessions0, connected, payload), sessions1, connected)
  {
    hide Reached, DistinctIds, IsConnected, Pushed;
    ReachedLength(connected, p, sessions0, chains0, sessions1, chains1);
    forall i | 0 <= i < |sessions1|
      ensures sessions1[i].id == sessions0[i].id && sessions1[i].wireId == sessions0[i].wireId
      ensures sessions1[i].remoteId ==
        if i < connected then (sessions0[i].remoteId + 1) % REMOTE_IDS else sessions0[i].remoteId
      ensures var o := sessions0[i].id; var h := Pushed(history, sessions0, connected, payload);
        && (o in h <==> o in history)
        && (o in history ==> h[o] == if i < connected then history[o] + [payload] else history[o])
    {
      ReachedSession(connected, p, sessions0, chains0, sessions1, chains1, i);
      PushedAt(history, sessions0, connected, payload, i);
    }
    PushedOrdinary(history, sessions0, connected, payload);
  }

  lemma PushedOrdinary(history: map<nat, seq<Payload>>, sessions: seq<Session>, connected: nat, payload: Payload)
    requires SessionsLogged(sessions, connected, history) && Ordinary(payload)
    ensures var h := Pushed(history, sessions, connected, payload);
      forall o, n :: o in h && 0 <= n < |h[o]| ==> Ordinary(h[o][n])
  {
    hide IsConnected;
  }

  lemma ReachedLength(n: nat, p: Addr, sessions0: seq<Session>, chains0: map<nat, seq<Loc>>, sessions1: seq<Session>,
                      chains1: map<nat, seq<Loc>>)
    requires Reached(n, p, sessions0, chains0, sessions1, chains1)
    ensures |sessions1| == |sessions0|
  {
  }

  lemma ReachedSession(n: nat, p: Addr, sessions0: seq<Session>, chains0: map<nat, seq<Loc>>, sessions1: seq<Session>,
                       chains1: map<nat, seq<Loc>>, i: nat)
    requires Reached(n, p, sessions0, chains0, sessions1, chains1) && i < |sessions0|
    ensures i < |sessions1| && sessions1[i] == if i < n then JoinedSession(sessions0[i], Loc(p, i)) else sessions0[i]
  {
  }

  lemma ConnectedAt(sessions: seq<Session>, connected: nat, i: nat)
    requires DistinctIds(sessions) && i < |sessions|
    ensures IsConnected(sessions, connected, sessions[i].id) <==> i < connected
  {
  }

  lemma PushedSent(sent0: seq<Datagram>, since: map<nat, nat>, sessions0: seq<Session>, connected: nat,
                   history: map<nat, seq<Payload>>,
                   p: Addr, payload: Payload, chains0: map<nat, seq<Loc>>, chains1: map<nat, seq<Loc>>,
                     sent1: seq<Datagram>,
                   sessions1: seq<Session>)
    requires SentLogged(sent0, since, sessions0, connected, history)
    requires SessionsLogged(sessions0, connected, history) && connected <= |sessions0| && DistinctIds(sessions0)
    requires Ordinary(payload)
    requires forall i :: 0 <= i < connected ==> sessions0[i].wireId == sessions0[i].id
    requires Reached(connected, p, sessions0, chains0, sessions1, chains1)
    requires connected <= |sessions1| && sent1 == sent0 + PushDatagrams(sessions1, connected, payload)
    ensures SentLogged(sent1, since, sessions1, connected, Pushed(history, sessions0, connected, payload))
  {
    var history1 := Pushed(history, sessions0, connected, payload);
    PushedSessions(sessions0, connected, history, p, payload, chains0, chains1, sessions1);
    forall i | 0 <= i < connected
      ensures Stays(sessions1[i], sessions0, connected) && GenuineFrom(sent1, |sent0|, sessions1[i], history1)
    {
      assert sessions0[i].id == sessions1[i].id && IsConnected(sessions0, connected, sessions1[i].id);
      var s, h := sessions1[i], history1[sessions1[i].id];
      forall k | |sent0| <= k < |sent1| && sent1[k].Data? && sent1[k].sessionId == s.id
        ensures Genuine(sent1[k], s, history1)
      {
        var j := k - |sent0|;
        assert sent1[|sent0| + j] == sent1[k] && sessions1[j].wireId == sessions0[j].id;
        assert j == i;
        assert IsPacket(sent1[k], s, h, |h|);
      }
    }
    SentKept(sent0, since, sessions0, connected, history, sent1, sessions1, connected, history1);
  }

  // ---------------------------------------------------------------- connecting

  /** Dumping the cache starts the record of a session. */
  lemma StartedChains(states0: map<Addr, State>, chains0: map<nat, seq<Loc>>, history: map<nat, seq<Payload>>,
                      cache: seq<Payload>,
                      o: nat, states1: map<Addr, State>, bodies1: map<Addr, Body>, chains1: map<nat, seq<Loc>>)
    requires ChainsLogged(states0, chains0, history)
    requires o in chains1 && o in chains0 && chains1 == chains0[o := chains1[o]]
    requires |chains1[o]| == |cache| && Dumped(states1, bodies1, chains1[o], cache)
    requires Extends(states0, states1)
    ensures ChainsLogged(states1, chains1, history[o := cache])
  {
    forall x, i {:trigger chains1[x][i]} | x in chains1 && 0 <= i < |chains1[x]|
      ensures chains1[x][i].packet in states1
      ensures Carries(x, |chains1[x]|, i, states1[chains1[x][i].packet], history[o := cache])
    {
      if x != o {
        assert chains0[x][i].packet in states0;
      }
    }
  }

  lemma StartedSent(sent0: seq<Datagram>, since: map<nat, nat>, sessions0: seq<Session>, c: nat,
                    history: map<nat, seq<Payload>>,
                    cache: seq<Payload>, sent1: seq<Datagram>, sessions1: seq<Session>, i: nat)
    requires SentLogged(sent0, since, sessions0, c, history) && c <= i < |sessions0| == |sessions1|
    requires DistinctIds(sessions1)
    requires |cache| < REMOTE_IDS
    requires var s := sessions1[c];
      && s.id == s.wireId && SameIdPeer(s, sessions0[i])
      && sent1 == sent0 + ChunkDatagrams(s, cache, |cache|)
    requires sessions1 == Swapped(sessions0, i, c)[c := sessions1[c]]
    ensures SentLogged(sent1, since[sessions1[c].id := |sent0|], sessions1, c + 1, history[sessions1[c].id := cache])
  {
    var s := sessions1[c];
    var history1, since1 := history[s.id := cache], since[s.id := |sent0|];
    forall x | 0 <= x < c + 1
      ensures sessions1[x].id in since1 && since1[sessions1[x].id] <= |sent1|
      ensures GenuineFrom(sent1, since1[sessions1[x].id], sessions1[x], history1)
    {
      forall k | |sent0| <= k < |sent1| && sent1[k].Data? && sent1[k].sessionId == sessions1[x].id
        ensures Genuine(sent1[k], sessions1[x], history1)
      {
        assert sent1[k] == Data(s.peer, s.wireId, k - |sent0| + 1, cache[k - |sent0|]);
        assert x == c;
        assert IsPacket(sent1[k], s, cache, k - |sent0| + 1);
      }
      if x < c {
        assert sessions1[x] == sessions0[x];
        GenuineLonger(sent0, sent1, since[sessions0[x].id], sessions0[x], sessions1[x], history, history1);
      }
    }
  }

  predicate SameIdPeer(s: Session, t: Session) {
    s.id == t.id && s.peer == t.peer
  }

  lemma StartedSessions(sessions0: seq<Session>, c: nat, history: map<nat, seq<Payload>>, cache: seq<Payload>,
                        sessions1: seq<Session>, i: nat)
    requires SessionsLogged(sessions0, c, history) && c <= i < |sessions0| == |sessions1| && DistinctIds(sessions1)
    requires |cache| < REMOTE_IDS && forall k :: 0 <= k < |cache| ==> Ordinary(cache[k])
    requires sessions1 == Swapped(sessions0, i, c)[c := sessions1[c]]
    requires sessions1[c].id == sessions1[c].wireId == sessions0[i].id && sessions1[c].remoteId == |cache|
    ensures SessionsLogged(sessions1, c + 1, history[sessions1[c].id := cache])
  {
    forall x | 0 <= x < |sessions1|
      ensures x < c ==> sessions1[x] == sessions0[x]
      ensures c < x ==> sessions1[x] == sessions0[if x == i then c else x]
    {
    }
  }

  // ---------------------------------------------------------------- opening

  /** A new session, whose id may have been in use before, has not been pushed anything. */
  lemma OpenedRecorded(states0: map<Addr, State>, chains0: map<nat, seq<Loc>>, sessions0: seq<Session>, connected: nat,
                       sent0: seq<Datagram>, since: map<nat, nat>, history0: map<nat, seq<Payload>>,
                       states1: map<Addr, State>, p: Addr, s: Session)
    requires Recorded(states0, chains0, sessions0, connected, sent0, since, history0) && Extends(states0, states1)
    requires connected <= |sessions0| && DistinctIds(sessions0 + [s]) && s.wireId != s.id
    requires s.id >= SERVER_ID > s.wireId
    requires forall i :: 0 <= i < |sessions0| ==> sessions0[i].id >= SERVER_ID
    requires p in states1 && !states1[p].closing && states1[p].payload == Accept(s.id - SERVER_ID)
    ensures Recorded(states1, chains0[s.id := [Loc(p, 0)]], sessions0 + [s], connected,
                     sent0 + [Data(s.peer, s.wireId, 0, states1[p].payload)], since, history0 - {s.id})
  {
    var chains1: map<nat, seq<Loc>>, history1 := chains0[s.id := [Loc(p, 0)]], history0 - {s.id};
    var sent1 := sent0 + [Data(s.peer, s.wireId, 0, states1[p].payload)];
    forall i | 0 <= i < |sessions0|
      ensures sessions0[i].id != s.id
    {
      OthersId(sessions0, s, i);
    }
    forall o, i {:trigger chains1[o][i]} | o in chains1 && 0 <= i < |chains1[o]|
      ensures chains1[o][i].packet in states1 && Carries(o, |chains1[o]|, i, states1[chains1[o][i].packet], history1)
    {
      if o != s.id { assert chains0[o][i].packet in states0; }
    }
    forall i | 0 <= i < connected
      ensures Stays(sessions0[i], sessions0, connected) && GenuineFrom(sent1, |sent0|, sessions0[i], history1)
    {
    }
    SentKept(sent0, since, sessions0, connected, history0, sent1, sessions0 + [s], connected, history1);
  }

  lemma OthersId(sessions: seq<Session>, s: Session, i: nat)
    requires DistinctIds(sessions + [s]) && i < |sessions|
    ensures sessions[i].id != s.id
  {
    assert (sessions + [s])[i] == sessions[i] && (sessions + [s])[|sessions|] == s;
  }

  // ---------------------------------------------------------------- shutting down

  lemma FlushedRecorded(states0: map<Addr, State>, chains0: map<nat, seq<Loc>>, sessions0: seq<Session>,
                        connected0: nat, sent0: seq<Datagram>, since: map<nat, nat>, history: map<nat, seq<Payload>>,
                        p: Addr, states1: map<Addr, State>, chains1: map<nat, seq<Loc>>, sessions1: seq<Session>,
                          sent1: seq<Datagram>)
    requires Recorded(states0, chains0, sessions0, connected0, sent0, since, history)
    requires p in states1 && states1[p].closing && states1[p].payload == CloseRequest
    requires forall o :: o in chains1 ==> forall i :: 0 <= i < |chains1[o]| ==> chains1[o][i].packet == p
    requires forall i :: 0 <= i < |sessions1| ==> sessions1[i].wireId == sessions1[i].id
    ensures Recorded(states1, chains1, sessions1, 0, sent1, since, history)
  {
  }

  // ---------------------------------------------------------------- sending again

  /** A repetition of a queued packet is one of the session's packets. */
  lemma {:induction false} TransmissionsGenuine(sessions: seq<Session>, lookup: seq<int>, b: Body, p: Addr,
                                                state: State, n: nat, states: map<Addr, State>, bodies: map<Addr, Body>,
                                                  chains: map<nat, seq<Loc>>,
                                                connected: nat, history: map<nat, seq<Payload>>, i: nat)
    requires n <= b.remaining && IndexOk(b) && p in bodies && bodies[p] == b && p in states && states[p] == state
    requires p != NULL
    requires TableOk(sessions, connected, lookup) && i < connected <= |sessions| && RefsOk(bodies, chains, NULL, {})
    requires ChainsLogged(states, chains, history) && SessionsLogged(sessions, connected, history)
    requires SessionOk(states, bodies, chains, {}, sessions[i], true)
    ensures GenuineFrom(Transmissions(sessions, lookup, b, state, n), 0, sessions[i], history)
  {
    var all := Transmissions(sessions, lookup, b, state, n);
    if n > 0 {
      hide RefsOk, ChainsLogged, SessionsLogged, TableOk, SessionOk, Genuine;
      var before := Transmissions(sessions, lookup, b, state, n - 1);
      TransmissionsGenuine(sessions, lookup, b, p, state, n - 1, states, bodies, chains, connected, history, i);
      var k := IndexAt(b, n - 1);
      EnumeratesOwed(b, k);
      if Addressable(sessions, lookup, b, k) {
        var t := sessions[lookup[b.slots[k].owner] - 1];
        if t.wireId == sessions[i].id {
          RepetitionGenuine(sessions, lookup, b, p, state, k, states, bodies, chains, connected, history, i);
        }
      }
      forall x | 0 <= x < |all| && all[x].Data? && all[x].sessionId == sessions[i].id
        ensures Genuine(all[x], sessions[i], history)
      {
        if x < |before| { assert all[x] == before[x]; }
      }
    }
  }

  lemma SessionAt(states: map<Addr, State>, bodies: map<Addr, Body>, chains: map<nat, seq<Loc>>, sessions: seq<Session>,
                  connected: nat, i: nat)
    requires SessionsOk(states, bodies, chains, {}, sessions, connected) && i < |sessions|
    ensures SessionOk(states, bodies, chains, {}, sessions[i], i < connected)
  {
  }

  lemma ResentSent(sent0: seq<Datagram>, since: map<nat, nat>, sessions: seq<Session>, lookup: seq<int>, connected: nat,
                   b: Body, p: Addr, states: map<Addr, State>, bodies: map<Addr, Body>, chains: map<nat, seq<Loc>>,
                   history: map<nat, seq<Payload>>)
    requires SentLogged(sent0, since, sessions, connected, history) && connected <= |sessions|
    requires IndexOk(b) && p in bodies && bodies[p] == b && p in states && p != NULL
    requires TableOk(sessions, connected, lookup) && RefsOk(bodies, chains, NULL, {})
    requires ChainsLogged(states, chains, history) && SessionsLogged(sessions, connected, history)
    requires SessionsOk(states, bodies, chains, {}, sessions, connected)
    ensures SentLogged(sent0 + Transmissions(sessions, lookup, b, states[p], b.remaining), since, sessions, connected,
                       history)
  {
    hide TableOk, RefsOk, ChainsLogged, SessionsLogged, SessionsOk, DistinctOwners;
    var all := Transmissions(sessions, lookup, b, states[p], b.remaining);
    forall i | 0 <= i < connected
      ensures GenuineFrom(sent0 + all, |sent0|, sessions[i], history)
    {
      SessionAt(states, bodies, chains, sessions, connected, i);
      TransmissionsGenuine(sessions, lookup, b, p, states[p], b.remaining, states, bodies, chains, connected, history,
                           i);
    }
    SentKept(sent0, since, sessions, connected, history, sent0 + all, sessions, connected, history);
  }

  lemma RepetitionGenuine(sessions: seq<Session>, lookup: seq<int>, b: Body, p: Addr, state: State, k: nat,
                          states: map<Addr, State>, bodies: map<Addr, Body>, chains: map<nat, seq<Loc>>,
                          connected: nat, history: map<nat, seq<Payload>>, i: nat)
    requires IndexOk(b) && Owes(b, k) && p in bodies && bodies[p] == b && p in states && states[p] == state && p != NULL
    requires TableOk(sessions, connected, lookup) && i < connected <= |sessions| && RefsOk(bodies, chains, NULL, {})
    requires ChainsLogged(states, chains, history) && SessionsLogged(sessions, connected, history)
    requires SessionOk(states, bodies, chains, {}, sessions[i], true)
    requires Addressable(sessions, lookup, b, k)
    requires sessions[lookup[b.slots[k].owner] - 1].wireId == sessions[i].id
    ensures Genuine(Transmission(sessions[lookup[b.slots[k].owner] - 1], b.slots[k], state), sessions[i], history)
  {
    hide RefsOk, ChainsLogged, SessionsLogged, TableOk, SessionOk;
    var s, x := sessions[i], lookup[b.slots[k].owner] - 1;
    RecordIds(sessions, connected, lookup, i);
    RecordIds(sessions, connected, lookup, x);
    LookupBack(sessions, connected, lookup, b.slots[k].owner);
    var y := LinkOf(bodies, chains, p, k);
    LinkNumber(states, bodies, chains, sessions, connected, history, i, y);
    assert IsPacket(Transmission(sessions[x], b.slots[k], state), s, history[s.id],
                    |history[s.id]| - |chains[s.id]| + y + 1);
  }

  lemma LookupBack(sessions: seq<Session>, connected: nat, lookup: seq<int>, id: nat)
    requires TableOk(sessions, connected, lookup) && id < |lookup| && 1 <= lookup[id] <= |sessions|
    ensures sessions[lookup[id] - 1].id == id || sessions[lookup[id] - 1].wireId == id
  {
    assert Registered(lookup, id);
  }

  lemma LinkOf(bodies: map<Addr, Body>, chains: map<nat, seq<Loc>>, p: Addr, k: nat) returns (y: nat)
    requires RefsOk(bodies, chains, NULL, {}) && p in bodies && p != NULL && Owes(bodies[p], k)
    ensures var o := bodies[p].slots[k].owner; o in chains && y < |chains[o]| && chains[o][y] == Loc(p, k)
  {
    assert Owed(bodies, NULL, {}, p, k);
    y :| 0 <= y < |chains[bodies[p].slots[k].owner]| && chains[bodies[p].slots[k].owner][y] == Loc(p, k);
  }

  /** Link `y` of the chain of a connected session is its packet number `|history| - |chain| + y + 1`. */
  lemma LinkNumber(states: map<Addr, State>, bodies: map<Addr, Body>, chains: map<nat, seq<Loc>>,
                   sessions: seq<Session>, connected: nat, history: map<nat, seq<Payload>>, i: nat, y: nat)
    requires ChainsLogged(states, chains, history) && SessionsLogged(sessions, connected, history)
    requires i < connected && i < |sessions| && SessionOk(states, bodies, chains, {}, sessions[i], true)
    requires sessions[i].id in chains && y < |chains[sessions[i].id]|
    ensures var s := sessions[i]; var l := chains[s.id][y];
      && s.id in history && l.packet in states && l.packet in bodies && l.slot < |bodies[l.packet].slots|
      && var n := |history[s.id]| - |chains[s.id]| + y + 1;
      && 1 <= n <= |history[s.id]| && states[l.packet].payload == history[s.id][n - 1]
      && bodies[l.packet].slots[l.slot].remoteId == n % REMOTE_IDS
  {
    hide Linked, Consecutive, SessionsLogged;
    var s := sessions[i];
    var l := chains[s.id][y];
    RecordCounts(sessions, connected, history, i);
    LinkId(bodies, chains[s.id], s.remoteId, y);
    assert Carries(s.id, |chains[s.id]|, y, states[l.packet], history);
    NumberWraps(|history[s.id]|, |chains[s.id]|, y);
  }

  lemma RecordCounts(sessions: seq<Session>, connected: nat, history: map<nat, seq<Payload>>, i: nat)
    requires SessionsLogged(sessions, connected, history) && i < connected && i < |sessions|
    ensures sessions[i].id in history && sessions[i].remoteId == |history[sessions[i].id]| % REMOTE_IDS
  {
  }

  lemma LinkId(bodies: map<Addr, Body>, c: seq<Loc>, last: nat, y: nat)
    requires Linked(bodies, c) && Consecutive(bodies, c, last) && y < |c|
    ensures c[y].packet in bodies && c[y].slot < |bodies[c[y].packet].slots|
    ensures bodies[c[y].packet].slots[c[y].slot].remoteId == (last + y + 1 - |c|) % REMOTE_IDS
  {
    assert c[y].packet in bodies;
  }

  lemma NumberWraps(h: nat, c: nat, y: nat)
    requires y < c <= h
    ensures (h % REMOTE_IDS + y + 1 - c) % REMOTE_IDS == (h - c + y + 1) % REMOTE_IDS
  {
  }
}
