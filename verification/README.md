# Verification of the ATEM proxy and its client

This project models the proxy server for ATEM video switchers, the client library that talks to such a
server, and the small web server of the client's firmware, and proves what their data structures and
protocols keep.

**The proxy** (`IndexSet`, `ProxyState`, `ProxyServer` and the lemma modules beside them). A dense array of
sessions with a connected prefix; a 65536-entry lookup table in which a session in its opening handshake
has two ids; packets shared by many sessions, each linked into one retransmit queue and threaded through a
chain per session; an in-place permutation inside each packet that says who still owes an acknowledgement;
and a timer that resends, turns packets into closing requests and terminates sessions. `Server.Inv` ties
all of it together, and every operation keeps it. What the invariant means in terms of the data structures
is in `Assertions`, together with the program's own consistency checks, walked the way the program walks
them.

Memory is an arena: maps from addresses to the fields of allocated packets. Releasing a packet removes its
address, so a field access that verifies is one to memory that has not been released. The ghost fields
`queue` and `chains` are what the pointers spell out; `births` is the order of creation; `history` is what
has been pushed to each session since it was connected, and `History` ties queue, chains, remote ids and
every datagram sent to it.

**Whole runs** (`Effects`, `Reception`, `Timeout`, `Runs`). `Effects` says what every event does, and which events
trip one of the program's assertions, as relations between whole states. `Reception` dispatches received packets and
`Timeout` is the timer, both proved against these relations. `Runs.RunFromStart` shows for every sequence of
events that each state of the run is sound and is the effect of one event on the state before. What holds over
such runs is in `StampOrder` and `OrderedRuns` (when the queue stays in the order in which its packets are due),
`Waits` and `Pings` (how long the timer waits, and when it pings), `SilentSessions` and `Persistence` (how often a
packet is sent to a client that does not answer, and when that is gone), `ClosingDown` (closing the proxy ends),
`Uplink` and `Answers` (the packets of a client are taken once each, in order, and acknowledged truthfully),
`Handshakes`, `Admission` and `Receipts` (who is let in, connected and gone, and what the clients hear of it) and
`EndToEnd`. `SoundStates` collects what the invariant says about the state between two events.

**Runs that fail** (`Failures`, `FailingRuns`, `SilentClients`, `OvertakenPing`, `ClockSetBack`, `EarlyData`). Where an
assertion of the program can fail: how a state comes about in which it does, and a run from the start that
gets there.

**The session protocol** (`Sequence`, `Acknowledgement`, `Client`, `Delivery`, `EndToEnd`). The 15-bit classification
of packets, the client's parser, and both ends together over a network that loses, repeats and reorders:
in `Delivery` with the proxy's end of one session as a list and a counter, in `EndToEnd` with the proxy as
modelled in full, whose events are shown to be events of `Delivery` for each session.

**In-place algorithms** (`Commands`, `CommandFormat`, `CacheChunks`, `CacheReading`). Translating camera control
commands inside the buffer that is being parsed, and cutting the cached state into chunks whose lengths are
hidden in it; and what the commands are, byte by byte, before and after.

**Threads and streams** (`Dispatch`, `KeyCascade`, `FormValue`, `FormBody`). The wake-up queue as atomic steps of its
threads, and the web server's resumable recognition of keys, decoding of values, and the two together on
a whole form.

## Where the code does not do what it says

- Acknowledgements (proxy/atem_session.c:558 says "up to ack_id"): the difference of ids is not masked, so
  packets behind the acknowledged one are released too. `Acknowledgement.AgreesExactlyWhen` is the exact
  condition for releasing what was meant, `Delivery.KeepsUndeliveredExactlyWhen` and
  `Delivery.NeverLostExactlyWhen` the exact condition for losing nothing, and
  `Delivery.LostByUnwrappedComparison` a run that loses packets. With a comparison that is masked like the
  client's nothing would be lost in any run, which is `Delivery.AckReleasesDelivered` and
  `Delivery.NothingIsLost`.
- An accept response that arrives after a retransmit request makes the client start over
  (core/atem.c:194): `Delivery.AcceptKeepsOrderExactlyWhen` and `Delivery.AcceptRepeatsExactlyWhen`;
  `Delivery.RepeatedAfterAccept` is a run that processes a packet twice. The other way round, data that
  arrives between opening a connection and the accept response keeps the client from starting over:
  `Client.DataSpoilsOpening`.
- Closing the server asserts that a session which is not connected shares its packet with nobody
  (proxy/atem_server.c:257). Two sessions that are dropped for the same packet do:
  `Failures.UnsharedExactlyWhen` is the exact condition, `Failures.ClosingAfterSharedTimeout` how it comes
  about, and `SilentClients.ClosingFails` a run from the start.
- The queue's tail is not reset when a terminated closing request was the last packet
  (proxy/atem_packet.c:281-286), so the assertion at proxy/atem_packet.c:340 can fail when the server is
  closed: `ProxyServer.Server.ServerFlush` says exactly when, `Failures.ClosingAfterLastTermination` how it
  comes about, and `SilentClients.TerminationFails` a run from the start.
- The run-time check of chains (proxy/atem_assert.c:119-128) fails when remote ids wrap around:
  `Assertions.CheckConnected`, `Failures.CheckAfterWrap`.
- The check of time stamps (proxy/atem_assert.c:76) can fail whenever a ping is overtaken by packets that the same
  run of the timer stamps anew, since the ping reads the clock again: `StampOrder.TimerKeepsOrderExactlyWhen`
  and `OrderedRuns.CheckAfterTimer` are the exact conditions, `OrderedRuns.RunKeepsOrderExactlyWhen` the one for
  whole runs, and `OvertakenPing.Exhibit` a run from the start.
- The timer asserts that the delay it returns fits a signed number (proxy/timeout.c:79, proxy/async.c:73), which a
  clock that is set back by weeks makes fail: `Timeout.TimeoutNext` and `ClockSetBack.NothingDueTrips` say exactly
  when, `ClockSetBack.Exhibit` is a run from the start.
- A command for camera 0 trips an assertion (proxy/atem_cache.c:80), and so does data from a client that has not
  acknowledged the accept response yet while nobody is connected (proxy/atem_cache.c:459):
  `Answers.DataTripsExactlyWhen`, and `EarlyData.Exhibit` for a run from the start.
- The wait that the timer returns can be a millisecond short or long, since fractions of a millisecond are cut off
  towards zero (proxy/timeout.c:17): `Waits.RunsOut` is exact, `Waits.OneMillisecondMore` an example.
- The answer to a client that closes is sent once; if it is lost the client's repeated request is ignored
  (proxy/atem_session.c:456-520, core/atem.c:89-116): `ClosingDown.ClosingIsAnsweredOnce`.
- The proxy does not mask a received id, the client does (proxy/atem_server.c:178, core/atem.c:122):
  `Sequence.VerdictsAgreeExactlyWhen`.

## Model

| member | source | states |
|---|---|---|
| `IndexSet.NewIsOwedByAll` | proxy/atem_session.c:598-602 | A packet whose slots all index themselves is owed by every session it was sent to. |
| `IndexSet.EnumeratesOwed` | proxy/atem_packet.h:24-27 | A slot is still owed exactly when some position below `sessions_remaining` names it. |
| `IndexSet.EnumeratesOnce` | proxy/atem_packet.c:248-258 | No two positions name the same slot, so a retransmit loop visits each once. |
| `IndexSet.DropRemovesExactly` | proxy/atem_packet.c:210-215 | The two index writes of a disassociation remove that slot from the set and no other, keep the permutation and move no session data. |
| `IndexSet.DropAllRemovesExactly` | proxy/atem_packet.c:196-221 | After any sequence of disassociations the set has lost exactly the dropped slots. |
| `IndexSet.RemainingCountsOwed` | proxy/atem_packet.c:208-212 | `sessions_remaining` is the number of owed slots. |
| `QueueLemmas.Unlinked` | proxy/atem_packet.c:162-178 | The pointer writes of a dequeue leave the links spelling out the queue without that element, wherever it was. |
| `QueueLemmas.Rotated` | proxy/atem_packet.c:36-47 | The pointer writes of a requeue leave the links spelling out the queue with its head at the end. |
| `QueueLemmas.OrderRotated` | proxy/atem_packet.c:259-260 | Rotating the head to the end for one resend keeps: of two ordinary packets the older is ahead with no more resends left, or behind with fewer. |
| `QueueLemmas.OrderAppended` | proxy/atem_packet.c:137-151 | Appending a new packet with all its resends keeps that order. |
| `QueueLemmas.OrderCut` | proxy/atem_packet.c:162-178 | Removing any packet keeps that order. |
| `QueueLemmas.ExhaustedHeadIsFirst` | proxy/atem_packet.c:300-308 | An ordinary head with no resends left is the first packet in every chain that contains it. |
| `ChainLemmas.DisassociatedRemovesDebt` | proxy/atem_packet.c:207-220 | Giving up a slot removes that debt and no other, whether or not the packet is released with it. |
| `ChainLemmas.RefsDisassociated` | proxy/atem_packet.c:196-221 | Slots owed and links of chains still correspond one to one after a disassociation, and no link leads to a released packet. |
| `ChainLemmas.PacketsDisassociated` | proxy/atem_packet.c:196-221 | The whole invariant over packets, chains and queue survives a disassociation. |
| `JoinLemmas.PacketsJoined` | proxy/atem_session.c:597-626 | Pushing a packet to a session keeps the invariant over packets and chains. |
| `JoinLemmas.SessionsJoined` | proxy/atem_session.c:604-625 | The pushed session has its chain extended by one link with the next remote id; every other session is as before. |
| `TableLemmas.Connected` | proxy/atem_session.c:335-370 | Completing an opening handshake keeps session array and lookup table mutually inverse: the record joins the connected prefix and the client id is forgotten. |
| `TableLemmas.Disconnected` | proxy/atem_session.c:412-417 | Dropping a connected session moves it behind the prefix and keeps array and table inverse. |
| `TableLemmas.HandshakeDropped` | proxy/atem_session.c:419-430 | Dropping a session in its opening handshake leaves no stale client id. |
| `TableLemmas.Removed` | proxy/atem_session.c:96-119 | Moving the last record into a removed one, with the order of lookup writes used when closing, keeps array and table inverse and leaves no stale id. |
| `TableLemmas.ConnectedRemoved` | proxy/atem_session.c:496-519 | The two moves that remove a connected session keep array and table inverse. |
| `TableLemmas.Added` | proxy/atem_session.c:241-279 | Registering a new session under both ids keeps array and table inverse. |
| `Acknowledgement.ReleasedIsLongestPrefix` | proxy/atem_session.c:575-593 | What an acknowledgement releases is the longest prefix of the chain whose ids all pass the comparison. |
| `Acknowledgement.ReleasedWithoutWrap` | proxy/atem_session.c:583-586 | Exactly how many packets the unmasked comparison releases, for every 16-bit acknowledge id and every chain. |
| `Acknowledgement.MaskedReleasesUpTo` | core/atem.c:152 | Exactly how many packets a comparison masked like the client's would release: up to the acknowledged id, or none for an id from the past. |
| `Acknowledgement.AgreesExactlyWhen` | proxy/atem_session.c:558-594 | The proxy's comparison releases what "up to ack_id" says if and only if a condition on first id, count and acknowledge id holds. |
| `Acknowledgement.AcknowledgingOneReleasesAll` | proxy/atem_session.c:584 | With 5, 6 and 7 outstanding an acknowledgement of 5 releases all three. |
| `Draining.FiredTotal` | proxy/atem_packet.c:239-331 | For any measure of packets, what one firing of the retransmit timer takes from and adds to the queue's total. |
| `Draining.WeightDecreases` | proxy/atem_packet.c:239-331 | Every firing makes the queue lighter, with weight resends + 1 for closing packets and resends + 3 for ordinary ones. |
| `Draining.ExpiredDecreases` | proxy/timeout.c:57-69 | Firing an expired head leaves fewer packets expired at that time. |
| `Draining.WaitingKept` | proxy/timeout.c:57-69 | A packet that has not expired is never used up by firing expired heads, so the queue does not run empty behind it. |
| `ProxyServer.Server.constructor` | proxy/atem_server.c:24-80 | A new server is empty in every field and satisfies the invariant. |
| `ProxyServer.Server.SessionSwap` | proxy/atem_session.c:68-90 | The records trade places and their server ids lead to the new places. |
| `ProxyServer.Server.SessionRelease` | proxy/atem_session.c:96-119 | The last record takes the place of the released one, under both its ids. |
| `ProxyServer.Server.Enqueue` | proxy/atem_packet.c:130-152 | The queue is extended by the packet at its end, with fresh resends and stamp. |
| `ProxyServer.Server.Dequeue` | proxy/atem_packet.c:155-183 | The queue loses exactly that element, wherever it is; an emptied queue has a null tail. |
| `ProxyServer.Server.Requeue` | proxy/atem_packet.c:30-63 | The queue is rotated by one and the rotated packet stamped with the caller's time. |
| `ProxyServer.Server.Release` | proxy/atem_packet.c:186-193 | The packet is gone from the queue and from memory. |
| `ProxyServer.Server.Disassociate` | proxy/atem_packet.c:196-221 | The session's chain loses that link; the packet is released exactly when nobody owes it any more; all other packets, and what is left of this one, are as the removal of that debt leaves them. |
| `ProxyServer.Server.Flush` | proxy/atem_packet.c:224-236 | The chain is cut off at the given link, its debts are gone one by one, and nothing else of any packet has changed. |
| `ProxyServer.Server.Alloc` | proxy/atem_packet.c:82-104 | A packet at an unused address, younger than all others, with arbitrary memory but for its session count. |
| `ProxyServer.Server.PacketSend` | proxy/atem_packet.c:117-127 | The datagram goes to the slot's session with the slot's remote id. |
| `ProxyServer.Server.PacketPush` | proxy/atem_session.c:597-626 | The session is sent the packet under its next remote id (modulo 0x8000) and its chain is extended by it. |
| `ProxyServer.Server.Broadcast` | proxy/atem_server.c:228-240 | Every connected session is sent the packet once and owes it; the packet is last in the queue. |
| `ProxyServer.Server.Acknowledge` | proxy/atem_session.c:559-594 | A connected session's chain loses exactly the packets the comparison releases, and those debts are all that changes; sessions that are not connected are left alone. |
| `ProxyServer.Server.SendAlone` | proxy/atem_cache.c:107-141 | A packet for one session, sent and queued with the low byte of its remote id. |
| `ProxyServer.Server.CacheDump` | proxy/atem_cache.c:422-454 | The session is sent all chunks in order under remote ids from 1, its chain holds exactly these packets, in fresh states, ending at its remote id; every other packet is as before. |
| `ProxyServer.Server.Promote` | proxy/atem_session.c:335-370 | The session is the last connected one and known only by its server id; the ping timer starts with the first one. |
| `ProxyServer.Server.Connect` | proxy/atem_session.c:314-390 | Happens exactly for a session in its opening handshake and its own peer; the handshake packet is replaced by the cached state, which starts the record of what is pushed to the session; all other packets keep state and sessions, and only the first session starts the ping timer. |
| `ProxyServer.Server.Create` | proxy/atem_session.c:196-311 | A new session with the next server id and an accept response if the client's id is unused, there is a free place and the server is not closing; otherwise that session's own accept response once more, or a rejection, or nothing, each exactly in its case, with every packet that was queued as it was. `Handshakes` and `Admission` say what clients make of it. |
| `ProxyServer.Server.OpenSession` | proxy/atem_session.c:241-310 | The new record is registered under both ids and owes exactly its accept response, which is queued with all its resends and the present stamp; every other packet is as before. |
| `ProxyServer.Server.Terminate` | proxy/atem_session.c:438-453 | The record and its server id are gone. |
| `ProxyServer.Server.Closing` | proxy/atem_session.c:456-520 | The session is answered, its debts are given up one by one, and it is gone, from either part of the array; nothing else has changed. |
| `ProxyServer.Server.Closed` | proxy/atem_session.c:523-554 | Removes the session, and its one debt, exactly if it had been sent a closing request. |
| `ProxyServer.Server.OwnerAt` | proxy/atem_assert.c:26-40 | Every position of a packet leads to a registered session whose chain contains the packet. |
| `ProxyServer.Server.ResendHead` | proxy/atem_packet.c:244-262 | The packet is sent once to each session that owes it, rotated and charged one resend. |
| `ProxyServer.Server.TerminateHead` | proxy/atem_packet.c:264-294 | All sessions owing the closing request are removed with it, one after the other, which says which record moves where; an emptied queue is left with a dangling tail. |
| `ProxyServer.Server.FirstForOwner` | proxy/atem_packet.c:301-308 | In every reachable state an exhausted ordinary head is the first packet of each session that still owes it. |
| `ProxyServer.Server.Drop` | proxy/atem_session.c:395-431 | The record leaves the connected prefix, or loses the client's id. |
| `ProxyServer.Server.CloseOwner` | proxy/atem_packet.c:301-324 | The session gives up everything but this packet and is sent the closing request under its server id. |
| `ProxyServer.Server.CloseHead` | proxy/atem_packet.c:296-330 | Each session owing the exhausted packet is left with it alone, and it becomes a closing request with one resend, sent to each; which records move, and which debts go, is given exactly. |
| `ProxyServer.Server.Retransmit` | proxy/atem_packet.c:239-331 | Which of the three happens, and then exactly what becomes of records, packets, chains and datagrams; a resend changes no record, body or id; if the queue is empty afterwards its tail was left behind. |
| `ProxyServer.Server.BroadcastPing` | proxy/atem_packet.c:369-380 | Every connected session is pinged once and the ping timer restarted. |
| `ProxyServer.Server.BroadcastNew` | proxy/atem_server.c:228-240 | One new packet, last in the queue, sent once to each connected session under its next remote id, and recorded as pushed to each of them. |
| `ProxyServer.Server.ReleaseAll` | proxy/atem_server.c:271-276 | Queue and memory are empty. |
| `ProxyServer.Server.ServerFlush` | proxy/atem_server.c:245-280 | Every session is left with the one closing request. The assertion at proxy/atem_server.c:257 holds exactly if no unconnected session shares its packet; the one at proxy/atem_packet.c:340 exactly if the queue was not empty or its tail was null. |
| `ProxyServer.Server.UseServerIds` | proxy/atem_server.c:253-268 | Every session is known by its server id and by no other, and the table stays inverse. |
| `ProxyServer.Server.BroadcastClose` | proxy/atem_packet.c:336-366 | All sessions share one closing request, which is all there is in the queue. |
| `Timeout.PingWhenDue` | proxy/timeout.c:36-54 | Pushes one ping to every connected session, and notes the time, exactly if a session is connected and the interval has run out. |
| `Timeout.FireExpired` | proxy/timeout.c:57-69 | A sequence of firings, each for a head that was due, up to a state whose head is not; ends for any clock; packets that had not expired keep their state. |
| `Timeout.TimeoutNext` | proxy/timeout.c:27-81 | A ping if due and then such a sequence of firings. The result is the nearer of the two timers as a signed number, never 0, and -1 exactly if neither timer runs. A positive result is the time to wait: that many milliseconds later something is due, and nothing is any earlier, give or take one for stamps with fractions of a millisecond. The assertion at line 79 holds exactly if the nearer timer, if there is one, is less than 2147483647. |
| `Sequence.VerdictsAgreeExactlyWhen` | proxy/atem_server.c:178-209 | Client and proxy classify a packet alike if and only if it is not the expected id with the unused top bit set. |
| `Sequence.VerdictIsTrueOrder` | core/atem.c:120-176 | 1 to 16382 ahead: retransmit request; 1 to 16385 behind: acknowledged again; only the expected packet is taken; one step further the verdict is the opposite. |
| `Sequence.NextIsExact` | core/atem.c:126 | Within a lag of one round of ids only the expected packet passes for the expected one, at the client and at the proxy. |
| `Client.Connection.Parse` | core/atem.c:86-220 | The new state and the status are those of the reference function, whose meaning the next rows and `Handshakes` state. |
| `Client.StatusMeans` | core/atem.c:118-219 | Which packets a connection that is not closing answers with which status: accepted, rejected, closing, none and error each for exactly these packets, and data for all that wants to be acknowledged. |
| `Client.DataMeans` | core/atem.c:118-180 | By packet numbers: the next packet is taken whole, from behind its header on, and acknowledged in its own session; one from up to 16382 ahead has the missing one asked for; one from up to 16385 behind has the last one acknowledged again. |
| `Client.OpeningStartsOver` | core/atem.c:67-72 | Opening a connection and receiving an accept response, with no data in between, starts the sequence of packets over, whatever came before. |
| `Client.DataSpoilsOpening` | core/atem.c:118-200 | A data packet in between is answered all the same, and unless it came from too far ahead the accept response does not start the sequence over. |
| `Client.ClosingRepeats` | core/atem.c:89-116 | Over any sequence of packets that reach a closing connection: which of them say that it is closed, and what it sends afterwards, under which session id: agreement if the last one asks to close, otherwise its own request, flagged as repeated. |
| `Client.ClosingIsFinal` | core/atem.c:89-116 | A closing connection processes no payload and does not move in the sequence, whatever arrives. |
| `Delivery.StepKeepsOrder` | core/atem.c:118-180 | Every timely event keeps the client in step: what it processed is a prefix of what was pushed, and every answer names the right packet. |
| `Delivery.DeliversExactlyTheNext` | core/atem.c:125-150 | A copy of a packet is processed exactly if it is the first that has not been. |
| `Delivery.RequestsExactlyWhenAhead` | core/atem.c:151-163 | A retransmit request is sent exactly for packets from the future and names the first undelivered one. |
| `Delivery.DeliversInOrder` | core/atem.c:86-220 | Exactly-once in-order delivery over every run of a network that loses, repeats and reorders; `EndToEnd` has it for the proxy as modelled. |
| `Delivery.DeliversFromStart` | core/atem.c:86-220 | From an accepted connection on, whatever the network does in time, what was processed is a prefix of what was pushed. |
| `Delivery.AcceptKeepsOrderExactlyWhen` | core/atem.c:193-200 | An accept response keeps the client in step if and only if the last answer was an acknowledgement or a whole number of rounds has been delivered. |
| `Delivery.AcceptRepeatsExactlyWhen` | core/atem.c:193-200 | After an accept response a late copy of a packet that was processed already is processed again exactly if the last answer was not an acknowledgement. |
| `Delivery.RepeatedAfterAccept` | core/atem.c:193-200 | A run of seven events that processes the same packet twice. |
| `Delivery.KeepsUndeliveredExactlyWhen` | proxy/atem_session.c:584-593 | With the comparison as written an acknowledgement releases nothing that was not delivered if and only if a condition on the oldest id, the acknowledged id and the number of packets holds. |
| `Delivery.NeverLostExactlyWhen` | proxy/atem_session.c:558-594 | With the comparison as written: along a whole run the proxy holds every undelivered packet if and only if every acknowledgement that arrives meets the condition. |
| `Delivery.RetransmissionDelivers` | proxy/atem_packet.c:244-262 | Then sending the first undelivered packet again gets the session on. |
| `Delivery.LostByUnwrappedComparison` | proxy/atem_session.c:584 | With the comparison as written a run of five events loses two packets. |
| `Handshakes.LetInExactlyWhen` | proxy/atem_session.c:196-311 | An unknown client that asks is let in if and only if there are fewer sessions than the limit and the proxy is not closing; the new record and its answer are given, and otherwise only a rejection has been sent. |
| `Handshakes.AnswerIsHeard` | core/atem.c:185-216 | The answer reads to the waiting client as accepted if it has been let in and as rejected otherwise. |
| `Handshakes.AskingAgain` | proxy/atem_session.c:205-225 | Asking again brings the same answer and changes nothing else. |
| `Handshakes.PushIsRead` | core/atem.c:126-150 | From a packet that is pushed to it a connected client reads as many bytes behind the header as were pushed, and none from a ping. |
| `Handshakes.ClosingIsHeard` | core/atem.c:89-103 | A client that closes its session is told so by the answer. |
| `Handshakes.RequestIsHeard` | core/atem.c:203-211 | A closing request of the proxy makes the client agree under the same id. |
| `Admission.OneTooMany` | proxy/atem_session.c:227-239 | From the start: as many clients as the limit says are let in, each under its own id and the next server id; the one after them is rejected and nothing else changes. |
| `Admission.FillUp` | proxy/atem_session.c:227-239 | The server itself does so, for every limit and every such sequence of clients. |
| `Receipts.StrangersChangeNothing` | proxy/atem_server.c:106-156 | A packet that is too short, or names a session that is not its sender's, changes nothing. |
| `Receipts.NewcomerExactlyWhen` | proxy/atem_server.c:115-133 | Whoever is there was there before, unless the event is a well-formed request of an unknown client for which there is room; if and only if. |
| `Receipts.LeaverExactlyWhen` | proxy/atem_server.c:165-174 | Of all received packets exactly its own client's closing request, or closed answer when it was asked to close, makes a session leave. |
| `Receipts.ConnectsExactlyWhen` | proxy/atem_server.c:134-141 | Whoever is connected was connected before, unless the event is an acknowledgement that completes an opening handshake; if and only if. |
| `Answers.AnswerMeans` | proxy/atem_server.c:176-219 | By packet numbers: the next packet of a client is acknowledged, one from up to 16382 ahead has the missing one asked for, and one from up to 16385 behind has the last one acknowledged again. |
| `Answers.AnswersOnlyData` | proxy/atem_server.c:176-219 | Every packet that wants to be acknowledged gets one answer, which is the last thing sent; nothing else is ever acknowledged or asked for. |
| `Answers.AnswersTruthful` | proxy/atem_server.c:176-219 | Over whole runs of all sessions: whatever the proxy acknowledges to a client it has taken from it, and what it asks for comes next after something it has taken. |
| `Answers.DataTripsExactlyWhen` | proxy/atem_cache.c:459 | This assertion and the one for camera 0 fail exactly for the next packet when nobody is connected or a command is for camera 0. |
| `Reception.ReceiveOpening` | proxy/atem_server.c:115-143 | A session joins, connects, is rejected or is ignored, with the effect on all of the state that `Effects` defines for each case and `Receipts` and `Handshakes` pin down; the one assertion that can fail is that the next server id is free. |
| `Reception.BroadcastUpdates` | proxy/atem_cache.c:461-479 | A sequence of pushes, one for each update in order up to a command for camera 0, each to all connected sessions, which stay the same clients. |
| `Reception.Take` | proxy/atem_server.c:181-196 | The updates are pushed, the packet is noted as the last one of its session only, and acknowledged; nothing else changes. Stops exactly at a command for camera 0, whose assertion is the one at proxy/atem_cache.c:80. |
| `Reception.ReceiveData` | proxy/atem_server.c:176-219 | Takes, asks for or acknowledges again according to the verdict, which `Answers.AnswerMeans` states by packet numbers; fails exactly if there is something to take and nobody is connected, or a command in it is for camera 0. |
| `Reception.ReceiveInSession` | proxy/atem_server.c:157-219 | Acknowledgement first, then closing, closed or data, with the effect that `Effects` defines for every combination; `Answers` and `Receipts` say what that means for sender and others. |
| `Reception.Receive` | proxy/atem_server.c:83-225 | Dispatch, with the effect on all of the state in each case and exactly the packets that trip an assertion of the session, packet, cache and server files; what the effects mean is in `Receipts`, `Handshakes` and `Answers`. |
| `Runs.Handle` | proxy/async.c:69-91 | Every event has its effect, as a relation between the states before and after it, unless it trips an assertion, and it says exactly when it does; for the timer these are proxy/async.c:72-73 and proxy/timeout.c:79. |
| `Runs.Run` | proxy/async.c:69-91 | Event after event has its effect on the state before, every state on the way is sound, and the run stops only at an event that trips an assertion. |
| `Runs.RunFromStart` | proxy/async.c:94-99 | The same from a new server on, whose whole state is given. |
| `Runs.WeightBound` | core/atem_protocol.h:54-55 | A packet is fired at most 13 times. |
| `Runs.NoMoreFirings` | proxy/atem_packet.c:239-331 | From any sound state the timer cannot fire more than 13 times for each packet in the queue, at whatever times. |
| `Runs.Drain` | proxy/atem_packet.c:239-331 | Firing the timer empties the queue; every step is a firing, and every session that owed something is gone. |
| `Runs.Flush` | proxy/atem_server.c:245-280 | Closing all sessions, with the exact condition under which one of its two assertions fails. |
| `Assertions.OwnersDistinct` | proxy/atem_packet.c:248-258 | The positions of a packet belong to different sessions. |
| `Assertions.RemainingCountsSessions` | proxy/atem_assert.c:19-40 | In every reachable state `sessions_remaining` is the number of sessions whose chain contains the packet. |
| `Assertions.NothingDangles` | proxy/atem_assert.c:121-126 | In every reachable state each packet is in the queue once, and every link leads to one in the queue. |
| `Assertions.CheckPacket` | proxy/atem_assert.c:18-50 | This check always succeeds: the flags and the length field, the links of the sessions a packet names, and its slots naming different sessions. |
| `Assertions.CheckPackets` | proxy/atem_assert.c:53-86 | The links of the queue always pass; the check succeeds exactly if the stamps do, for which `OrderedRuns.CheckAfterTimer` gives the condition before the timer runs. |
| `Assertions.CheckConnected` | proxy/atem_assert.c:89-138 | This check succeeds exactly if the chain's remote ids do not wrap around from 0x7fff to 0. |
| `Assertions.CheckUnconnected` | proxy/atem_assert.c:141-172 | This check always succeeds. |
| `Assertions.CheckTable` | proxy/atem_assert.c:187-217 | These checks always succeed. |
| `Assertions.FindQueued` | proxy/atem_assert.c:121-126 | A packet is found in the queue exactly if it is allocated. |
| `Commands.Packet.CmdNext` | core/atem.c:223-244 | Name and payload of the first of the commands that are left, and what is left then; that this is what was written is `CommandFormat.ReadingInverts`. |
| `Commands.Packet.MoveGroup` | core/atem.c:298-300 | A value is reversed while it is moved over itself. |
| `Commands.Packet.MoveData` | core/atem.c:294-301 | For every length and width: the groups that an 8-bit index visits are reversed and moved one after the other, also when it wraps around, and no other byte changes. |
| `Commands.SizesOk` | core/atem.c:282-295 | Whatever a command says, the loop over its data ends: the 8-bit index reaches every length that goes with its width. |
| `Commands.AllSwapped` | core/atem.c:294-301 | Without a wrap-around every group of the data is swapped once although source and destination overlap, and nothing else is written. |
| `Commands.Packet.CcTranslate` | core/atem.c:272-311 | The buffer after header, data and padding, for every command; if the command holds the data it announces the payload becomes the message for it, and nothing outside the command is written. |
| `Commands.Packet.Process` | firmware/atem_sock.c:148-214 | Iterating while translating in place shows the same names, lengths and payloads as parsing the untouched packet, and ends; the translations are those of the camera control commands for the own camera (`CommandFormat.OneCameraCommand`). |
| `Commands.SwappedNumbers` | core/atem.c:294-301 | The data read as big-endian numbers before equals the data read as little-endian numbers after. |
| `Commands.MessageOfSingleType` | core/atem.c:272-311 | For values of one type: same numbers in little endian order, unchanged category, parameter, type and operation, zeros up to a multiple of four. |
| `Commands.MessageIsWholeExactlyWhen` | core/atem.c:282 | The message holds as many of the values as fit an 8-bit length, in order: all of them if and only if there are fewer than 256 bytes. |
| `CommandFormat.ReadingInverts` | core/atem.c:223-244 | Reading the commands of a packet inverts writing them behind its header, for every list of commands whose names and lengths fit and every padding. |
| `CommandFormat.CameraControlName` | firmware/atem_sock.c:185 | The name stands for the four letters CCdP and for no others. |
| `CommandFormat.OneCameraCommand` | firmware/atem_sock.c:148-207 | A packet with one camera control command, byte by byte: its message is written if it is for the own camera, and nothing otherwise. |
| `CommandFormat.TranslationIsExact` | core/atem.c:272-311 | A setting in the layout of the switcher is translated into the same setting in the layout of the camera, both written out byte by byte. |
| `CacheChunks.Cache.Mark` | proxy/atem_cache.c:391-413 | The marked chunks are a greedy cut of the commands, and only chunk heads have been written to. |
| `CacheChunks.ChunkOf` | proxy/atem_cache.c:397-412 | A chunk of a cut starts and ends with a command, holds at most 1410 bytes, and would hold more with the next command. |
| `CacheChunks.CutIsUnique` | proxy/atem_cache.c:391-413 | There is only one such cut. |
| `CacheChunks.FewChunks` | proxy/atem_cache.c:397-408 | Two chunks in a row exceed a packet, so a list shorter than 128 packets' worth has fewer than 256 chunks. |
| `CacheChunks.DumpFits` | proxy/atem_cache.c:422-448 | The chunks of such a list are what a server needs: fewer than 256, each making a packet of at most 1422 bytes. |
| `CacheChunks.HeadOf` | proxy/atem_cache.c:435-438 | Hopping by the length in each head visits exactly the chunks. |
| `CacheChunks.MarkedElsewhere` | proxy/atem_cache.c:55-59 | Nothing but the two padding bytes of chunk heads is different. |
| `CacheChunks.CommandReadable` | proxy/atem_cache.c:398-399 | Marking does not disturb the length of the command that is looked at next. |
| `CacheChunks.Cache.Dump` | proxy/atem_cache.c:422-448 | The dumped payloads are the chunks, and together they are the whole list. |
| `CacheReading.DumpIsRead` | proxy/atem_cache.c:391-454 | Every dumped packet is a list of whole commands, and read one after the other they are the cached commands, in order: cutting loses nothing and the lengths hidden in the padding disturb nothing. |
| `Dispatch.Async.Append` | proxy/async.c:206-217 | The dispatched task is last in the queue; a wake-up is owed exactly if the queue was empty. |
| `Dispatch.Async.Signal` | proxy/async.c:209-213 | There is one byte in the pipe. |
| `Dispatch.Async.Read` | proxy/async.c:40-47 | Exactly one byte is read, and there is something in the queue. |
| `Dispatch.Async.RunNext` | proxy/async.c:57-61 | The first task is run and gone. |
| `Dispatch.Async.UnlockQueue` | proxy/async.c:63-65 | Everything dispatched so far has been run. |
| `Dispatch.Async.OneWakeup` | proxy/async.c:39-66 | Outside the draining loop the queue is not empty exactly if one wake-up is on its way. |
| `Dispatch.Async.SomebodyCanMove` | proxy/async.c:191-225 | While a task is queued the background thread or the holder of the mutex can take a step. |
| `Dispatch.Async.SomebodyGoesOn` | proxy/async.c:191-225 | Unless everything dispatched has been run and all threads are at rest, somebody can take a step, even if nothing more is dispatched. |
| `Dispatch.Async.RunsInOrder` | proxy/async.c:56-61 | Tasks are run once each in the order of dispatch. |
| `Dispatch.Interleave` | proxy/async.c:186-190 | Under every interleaving of any number of threads: the state after any sequence of steps is that of the machine the steps define, and the invariant holds. |
| `Dispatch.ComesToRest` | proxy/async.c:39-66 | Once nothing more is dispatched, every sequence of steps is finite, and a measure of what is left says how long it can be ... |
| `Dispatch.FewStepsLeft` | proxy/async.c:39-66 | ... at most nine steps for each dispatching thread and a few for the background thread, after which everything has been run. |
| `KeyCascade.Matcher.CmpBack` | firmware/http.c:73-82 | Whether the key goes on from what has been consumed. |
| `KeyCascade.Matcher.Cmp` | firmware/http.c:85-96 | Found, incomplete or ruled out, without losing a byte of the stream. |
| `KeyCascade.Matcher.ReadKey` | firmware/http.c:402-440 | For every segmentation: a key is picked exactly if the stream starts with it, and exactly that key is consumed. |
| `KeyCascade.RightIsUnique` | firmware/http.c:544-669 | For a prefix-free list there is one right outcome, so the segmentation does not matter. |
| `KeyCascade.KeyListsArePrefixFree` | firmware/http.c:404-660 | The methods and the form keys are prefix-free. |
| `FormValue.Field.ValueString` | firmware/http.c:183-239 | What one segment adds to the stored value, when the value ends, and when it is too long. |
| `FormValue.Field.ReadValue` | firmware/http.c:183-239 | Stored value and outcome depend on the bytes of the body only, not on how they are cut. |
| `FormValue.DecodeSplit` | firmware/http.c:188-198 | Decoding may be interrupted anywhere, even inside a %XX triple. |
| `FormValue.DecodeInverts` | firmware/http.c:30-215 | Decoding inverts every percent-encoding of every byte string, with digits of either case and plus for space. |
| `FormBody.ReadForm` | firmware/http.c:542-704 | For every segmentation of a body whose fields are strings: which fields hold which values, and how it ends, depends on the bytes only. |
| `FormBody.ReadingInverts` | firmware/http.c:183-239 | Reading a form inverts writing it, for every list of fields and every percent-encoding of their values. |
| `History.LinkNumber` | proxy/atem_session.c:597-626 | Every link of a connected session leads to a packet with the payload that was pushed under its number, and its slot carries that number modulo 0x8000. |
| `History.TransmissionsGenuine` | proxy/atem_packet.c:244-262 | Whatever a repetition sends to a connected session is one of the packets pushed to it, under its own number. |
| `History.PushedSent` | proxy/atem_session.c:608-616 | A push sends the next packet of each connected session's record. |
| `History.StartedSent` | proxy/atem_cache.c:422-448 | The dumped chunks are the first packets of the session's record. |
| `EndToEnd.PushIsStep` | proxy/atem_server.c:228-240 | A push of the proxy as modelled is a push in the session protocol, for every connected session. |
| `EndToEnd.AckIsStep` | proxy/atem_session.c:559-594 | An acknowledgement is the arrival of one of the client's answers in its session ... |
| `EndToEnd.AckOfOthers` | proxy/atem_session.c:559-594 | ... and nothing in every other one. |
| `EndToEnd.FiringIsSilent` | proxy/atem_packet.c:239-331 | To a session that is still connected a firing of the timer is nothing, whoever else it drops. |
| `EndToEnd.SentIsPacket` | proxy/atem_packet.c:117-127 | All data sent to a session since it was connected reads to the client as a packet pushed to it. |
| `EndToEnd.CopyIsStep` | core/atem.c:118-180 | The arrival of such a datagram at the client is the arrival of that packet in the session protocol. |
| `EndToEnd.EventKeepsStep` | proxy/atem_server.c:83-225 | Every event of the proxy that leaves a session connected keeps its client in step. |
| `EndToEnd.DeliversPushed` | core/atem.c:86-220 | Over every run of proxy, network and client while the session is connected: what the client has processed is a prefix of what the proxy has pushed to it. |
| `EndToEnd.DeliversOverTrace` | core/atem.c:86-220 | The same over every trace of events that the server has handled, whose states are sound as `Runs.Run` shows. |
| `EndToEnd.StartsInStep` | proxy/atem_session.c:314-390 | The completed opening handshake starts such a run, with the cached state as what was pushed. |
| `Failures.UnsharedExactlyWhen` | proxy/atem_server.c:257 | This assertion holds if and only if no closing request is owed by two sessions. |
| `Failures.ClosingAfterSharedTimeout` | proxy/atem_server.c:257 | It fails after the timer has given up on a packet that two sessions owe. |
| `Failures.ClosingAfterLastTermination` | proxy/atem_packet.c:340 | This assertion fails after the timer has terminated the sessions of the last packet, if another session owed nothing. |
| `Failures.CheckAfterWrap` | proxy/atem_assert.c:119-128 | This check fails after a push to a session with remote id 0x7fff that owes something. |
| `Failures.StampsOutOfOrder` | proxy/atem_assert.c:76 | This check fails after a ping and a repetition in the same run of the timer. |
| `StampOrder.PathParted` | proxy/timeout.c:57-69 | Over a whole run of the timer on an ordered queue: what is left is first what was not due, then the ping if somebody still owes it, then what has been stamped anew; and there is something stamped anew exactly if something was due that would be. |
| `StampOrder.PathKeepsUp` | proxy/atem_packet.c:296-330 | Somebody stays connected through a run of the timer exactly if a connected session owed nothing that it gives up on. |
| `StampOrder.TimerKeepsOrderExactlyWhen` | proxy/atem_assert.c:70-77 | A run of the timer on an ordered queue keeps the order that the check demands unless a ping is due, something due is stamped anew behind it, somebody keeps up who owes the ping, and the ping is stamped a millisecond later than the run started; if and only if. |
| `OrderedRuns.OtherEventsKeepOrder` | proxy/atem_packet.c:130-152 | No other event disturbs the order of the stamps. |
| `OrderedRuns.RunKeepsOrderExactlyWhen` | proxy/timeout.c:27-81 | Over a whole run with a clock that is not set back the queue is in the order of its stamps if and only if no run of the timer overtakes a ping with a later stamp. |
| `OrderedRuns.CheckAfterTimer` | proxy/atem_assert.c:53-86 | The check of the queue within a second after the timer ran fails if and only if a ping was overtaken in that run, given as a condition on the state before it and the three times. |
| `OvertakenPing.Exhibit` | proxy/atem_assert.c:76 | A run of five events from the start, after which the check of the queue fails. |
| `ClosingDown.ClientAgrees` | core/atem.c:89-116 | However often a closing request reaches a client, and whatever it has been through, it agrees, and says at most once that the connection is closing. |
| `ClosingDown.ClosingIsAnsweredOnce` | proxy/atem_session.c:456-520 | A request to close ends the session and is answered; when it is repeated because the answer was lost it is ignored and changes nothing. |
| `ClosingDown.ClosedIsWinding` | proxy/atem_server.c:245-292 | Closing the proxy leaves everybody with a closing request and nobody connected. |
| `ClosingDown.EverybodyIsTold` | proxy/atem_server.c:245-280 | Closing the proxy sends every session a closing request under its own id. |
| `ClosingDown.EventWinds` | proxy/atem_server.c:283-292 | While the proxy is being closed no event lets anybody in, everybody who is left has been sent a closing request, and whoever answers it is gone. |
| `ClosingDown.WhoIsLeft` | proxy/atem_session.c:523-554 | Over whole runs: who is left was there when the proxy was closed and has not answered. |
| `ClosingDown.EverybodyAnswered` | proxy/atem_server.c:294-304 | Once everybody has answered, in whatever order and however often, nobody is left and the proxy can be opened again. |
| `Waits.ElapsedLater` | proxy/timeout.c:17 | How the difference to a stamp grows with the clock: by the milliseconds that go by, and one more or less where the fraction is cut off in the other direction. |
| `Waits.RemainingIs` | proxy/timeout.c:12-24 | What is left and what has gone by make up the delay, if and only if the stamp does not lie 49 days ahead. |
| `Waits.RunsOut` | proxy/timeout.c:12-24 | A timer runs out when what was left has gone by, give or take that rounding. |
| `Waits.TimerAwaits` | proxy/timeout.c:27-81 | After every run of the timer: when the delay it returns has gone by something is due, and nothing is any earlier. |
| `Waits.OneMillisecondMore` | proxy/timeout.c:17 | With stamps in fractions of a millisecond there can be a millisecond left when the wait is over. |
| `Pings.PingsExactlyWhen` | proxy/timeout.c:36-54 | A run of the timer pings a connected session exactly if the interval has gone by since the ping timer was started. |
| `Pings.TimerKept` | proxy/atem_session.c:359-363 | Nothing starts the ping timer but a ping and the first session that is connected. |
| `Pings.PingsRegularly` | proxy/timeout.c:36-54 | Over whole runs, whatever joins, leaves or is sent in between: everybody connected is pinged exactly when the interval is over since the last ping or the first connection. |
| `Persistence.TimerSteps` | proxy/atem_packet.c:239-331 | A run of the timer on an ordered queue fires a session's oldest packet if and only if it is due, once, and sends it or its closing request to the session. |
| `Persistence.PushStarts` | proxy/atem_packet.c:130-152 | A packet that is pushed to a session that owes nothing has ten resends. |
| `Persistence.StageIsCount` | core/atem_protocol.h:54-55 | Over whole runs the stage of a packet that is not acknowledged is the number of timer runs that found it due: ten resends, then a closing request, one resend of that, and at the thirteenth the session is gone. |
| `Persistence.TriesTenTimes` | core/atem_protocol.h:54-55 | Until then the session stays connected, owes the packet, and is sent it each time. |
| `SilentSessions.TimerCloser` | proxy/atem_packet.c:239-331 | A run of the timer leaves the oldest packet of a session that stays as it was or closer to its end, and closer if it was due. |
| `SilentSessions.EventCloser` | proxy/atem_server.c:83-225 | Nothing that others do gives a silent session more time. |
| `SilentSessions.SilentSessionIsGone` | core/atem_protocol.h:54-55 | Whatever else happens: a session that owes something and is not heard of is gone after at most thirteen runs of the timer that find its oldest packet due. |
| `Uplink.StartsWithNothing` | proxy/atem_session.c:262-274 | A session that has been let in has had nothing taken from it. |
| `Uplink.EventLast` | proxy/atem_server.c:176-196 | No event but a packet that is taken changes which packet is expected from a session. |
| `Uplink.TakenInOrder` | proxy/atem_server.c:176-219 | Over whole runs of all sessions: the packets of a client are taken once each, in order and without a gap, however the network repeats and reorders them within a round of ids. |
| `FailingRuns.FailureIsReached` | proxy/async.c:69-91 | A run of events that fail at the last one in every course they can take stops there. |
| `SilentClients.ClosingFails` | proxy/atem_server.c:257 | Every course that two joining clients, a ping, eleven silent timer runs and a shutdown can take trips this assertion at the shutdown, and no other before. |
| `SilentClients.TerminationFails` | proxy/atem_packet.c:340 | The same for this assertion: one of two clients answers the ping, the other is terminated with the last packet, and the proxy is closed. |
| `SilentClients.Exhibit` | proxy/atem_server.c:283-292 | The server, run on either sequence of events from the start, stops at the last one. |
| `EarlyData.Exhibit` | proxy/atem_cache.c:459 | The server stops at a data packet that a client sends before it has acknowledged the accept response while nobody is connected. |
| `ClockSetBack.NothingDueTrips` | proxy/timeout.c:79 | When nothing is due a run of the timer changes nothing, and this assertion fails if and only if the nearer timer does not fit. |
| `ClockSetBack.Exhibit` | proxy/async.c:73 | The server stops at the timer after a client has opened a session and the clock was set back by 2147484 seconds. |

## Left out

- Sockets, polling, the clock and the allocator: a sent datagram is appended to a sequence, clock readings are
  arguments (one for all packets that one event queues), and allocation succeeds.
- Growing and shrinking the session array (proxy/atem_session.c:244-260, 121-140): the array is a sequence with
  the configured limit.
- ProxyServer.Server.Create: the next server id is assumed to be free when a session is accepted, as
  proxy/atem_session.c:277 asserts; `Reception.ReceiveOpening` says when that assertion fails.
- Reception.ReceiveInSession: a packet with an opcode carries no data, as doc/atem_protocol.md:48-51 prescribes.
- Reception.Take: what the commands of a packet come to is an argument, for each an update or the failure for camera
  0 (proxy/atem_cache.c:74-225); other conditions on their contents (proxy/atem_cache.c:78-82, 143-225) are not
  modelled, and the cached state that new clients are sent does not change.
- ProxyServer.Server.SendAlone: the flag that marks a repeated packet and the bytes of packet buffers other than
  length, opcode, ids and payload are not modelled.
- ProxyServer.Server.CacheDump: the cached state is taken to have fewer than 256 chunks, since the chain stores
  the low byte of a chunk's remote id only (proxy/atem_cache.c:138); `CacheChunks.FewChunks` says that a list
  of less than 180608 bytes has.
- Waits.TimerAwaits: for stamps that are not 49 days ahead of the clock; when everybody who would have been pinged was
  dropped nothing need be due, and the interval that a ping has just started is not looked at.
- OrderedRuns.CheckAfterTimer: for a clock that is not set back and does not jump by more than 24 days while the
  timer runs; the check that the ping timer was not started in the future (proxy/atem_assert.c:234-246) is not part
  of this model.
- SilentSessions.SilentSessionIsGone: for runs in which the queue stays in order, and until the proxy is closed.
- Client.Connection.Parse: the static buffers of core/atem.c:39-62, which all contexts of a thread share, belong to one
  connection here, and the length of the write buffer is not modelled.
- Delivery.DeliversInOrder: copies arrive within one round of ids and accept responses before retransmit requests,
  which is stated as `Timely`.
- EndToEnd.DeliversPushed: the same timing; the network does not hand over data of an earlier session with the same
  id, and acknowledgements under a session's id come from its client.
- Commands.Packet.CcTranslate: what it reads and writes is in the buffer, which nothing in core/atem.c checks.
- Commands.TranslatedIsMessage: what a message means is stated for data that does not make the 8-bit index wrap around
  and that is there in full; for the rest the bytes of the buffer are given.
- Commands.Packet.Process: commands fill the packet exactly and camera control commands for the own camera hold the data
  they announce; nothing in core/atem.c checks either.
- CacheChunks.Cache.Mark: the fixed command tables are taken to be a well-formed list of commands of at most 1410 bytes.
- Dispatch.Async.Signal: writing to the pipe succeeds, and tasks do not dispatch tasks (proxy/async.c:187).
- KeyCascade.Matcher.ReadKey: the end of a body inside a key, which http_post_key_incomplete treats differently,
  ends in the same error; which key is compared last is not modelled.
- FormValue.Field.ReadValue: the body has as many bytes as announced, and characters are unsigned, which only matters for
  what is not a hexadecimal digit.
- FormBody.ReadForm: all fields are strings, and each key and value gets a reader of its own in the state in which the
  one before leaves the fields they share.
- HTTP headers, responses, IPv4, flag and integer values (firmware/http.c, firmware/http_respond.c): resumption does
  not have a clean specification there, or there is little to prove.
- The legacy server in proxy_server/, device drivers, tools and user interfaces.
