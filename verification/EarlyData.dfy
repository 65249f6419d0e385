/** A run in which an assertion fails because a client sends data before it has acknowledged the accept response, while
    nobody is connected. */
module EarlyData {
  import opened Basics
  import opened ProxyState
  import opened ProxyServer
  import opened SessionLemmas
  import opened Effects
  import opened SoundStates
  import opened FailingRuns
  import opened Handshakes

  function Asking(): Event {
    Received(OpenPacket(1), HOST, At(1))
  }

  /** The client's packet 1, under the id that it has just been given. */
  function Telling(updates: seq<Update>): Event {
    Received(Packet(HEADER, false, false, true, OtherOp, SERVER_ID + 1, 0, 1, updates), HOST, At(2))
  }

  function TooEarly(updates: seq<Update>): seq<Event> {
    [Asking()] + [Telling(updates)]
  }

  ghost predicate LetIn(s: Snapshot) {
    && s.Sound() && s.connected == 0 && |s.sessions| == 1
    && s.sessions[0].id == SERVER_ID + 1 && s.sessions[0].peer == HOST && s.sessions[0].remoteIdLast == 0
  }

  lemma AskingLetsIn(chunk: CommandList, t: Snapshot)
    requires t.Sound()
    ensures !Trips(Asking(), Started(chunk), t)
    ensures Effect(Asking(), Started(chunk), t) ==> LetIn(t)
  {
    InitiallyIdle(chunk);
    hide Snapshot.Sound;
    if Effect(Asking(), Started(chunk), t) {
      LetInExactlyWhen(Asking(), Started(chunk), t);
    }
  }

  lemma TellingTrips(s: Snapshot, t: Snapshot, updates: seq<Update>)
    requires LetIn(s)
    ensures Trips(Telling(updates), s, t)
  {
    hide Snapshot.Sound;
    IdOf(s, 0);
  }

  lemma TellingFails(s: Snapshot, updates: seq<Update>)
    requires LetIn(s)
    ensures Fails(s, [Telling(updates)])
  {
    hide Snapshot.Sound, Effect, Trips, LetIn;
    forall t: Snapshot
      ensures Trips(Telling(updates), s, t)
    {
      TellingTrips(s, t, updates);
    }
  }

  /** From the start: the data trips, and nothing before it. */
  lemma TooEarlyFails(chunk: CommandList, updates: seq<Update>)
    ensures Fails(Started(chunk), TooEarly(updates))
  {
    hide Snapshot.Sound, Effect, Trips, Fails, LetIn;
    AskingTripsNothing(chunk);
    forall t: Snapshot | t.Sound() && Effect(Asking(), Started(chunk), t)
      ensures !Trips(Asking(), Started(chunk), t) && Fails(t, [Telling(updates)])
    {
      AskingLetsIn(chunk, t);
      TellingFails(t, updates);
    }
    FailsStep(Started(chunk), Asking(), [Telling(updates)]);
  }

  lemma AskingTripsNothing(chunk: CommandList)
    ensures forall t: Snapshot :: !Trips(Asking(), Started(chunk), t)
  {
    InitiallyIdle(chunk);
    AskingLetsIn(chunk, Started(chunk));
  }

  /** The server itself stops at the data. */
  method Exhibit(chunk: CommandList, updates: seq<Update>) returns (server: Server, handled: nat)
    ensures server.Valid() && handled == 1
  {
    hide Fails, Server.Inv, Server.Logged;
    TooEarlyFails(chunk, updates);
    server, handled := RunToFailure(chunk, TooEarly(updates));
  }
}
