/**
 * The round ledger the tablets report played cards to
 * (GameScreenToGameBoardSync.cs): an append-only list of play records and a
 * readiness flag that turns on once enough records have arrived.
 */
module BoardSync {

  /**
   * One played card. `timestamp` is the server clock reading at the time of
   * the report, passed in from outside.
   */
  datatype CardPlayData = CardPlayData(cardId: string, cardTitle: string, playerId: nat, timestamp: int)

  /**
   * The readiness rule: at least one record per expected player, where the
   * host (the shared screen) is not a player, and at least one player exists.
   */
  predicate Quorum(recordCount: nat, connectedClients: nat)
  {
    var expectedPlayers := connectedClients - 1;
    recordCount >= expectedPlayers && expectedPlayers > 0
  }

  /** With only the host connected, no number of records is ever enough. */
  lemma HostAloneNeverReady(recordCount: nat, connectedClients: nat)
    requires connectedClients <= 1
    ensures !Quorum(recordCount, connectedClients)
  {
  }

  /** The rule counts records, not players: one player reporting often enough meets it. */
  lemma QuorumCountsRecords(connectedClients: nat)
    requires connectedClients >= 2
    ensures Quorum(connectedClients - 1, connectedClients)
    ensures !Quorum(connectedClients - 2, connectedClients)
  {
  }

  /** More records never make a met quorum unmet. */
  lemma QuorumMonotone(n: nat, m: nat, connectedClients: nat)
    requires Quorum(n, connectedClients) && n <= m
    ensures Quorum(m, connectedClients)
  {
  }

  /** Notifications the server sends to the shared screen. */
  datatype Notice = GameBoardReady

  class GameScreenToGameBoardSync {
    const isServer: bool
    var isSpawned: bool
    var playedCards: seq<CardPlayData>
    var allPlayersReady: bool
    /** Client RPCs sent so far. */
    var notices: seq<Notice>

    constructor (server: bool, spawned: bool)
      ensures isServer == server && isSpawned == spawned
      ensures playedCards == [] && !allPlayersReady && notices == []
    {
      isServer := server;
      isSpawned := spawned;
      playedCards := [];
      allPlayersReady := false;
      notices := [];
    }

    /**
     * `ReportCardPlayed`, called on any peer's copy of the object. A server
     * RPC body always runs on the server's copy, whoever sends it, so the
     * call is modelled as acting on `server`, the server's instance (which
     * is this object itself when the caller is the host). On an object that
     * is not spawned nothing is sent and nothing changes.
     */
    method ReportCardPlayed(server: GameScreenToGameBoardSync, cardId: string, cardTitle: string, playerId: nat,
                            time: int, connectedClients: nat)
      requires server.isServer
      modifies server
      ensures !old(isSpawned) ==>
        server.playedCards == old(server.playedCards) && server.allPlayersReady == old(server.allPlayersReady)
        && server.notices == old(server.notices)
      ensures old(isSpawned) ==>
        server.playedCards == old(server.playedCards) + [CardPlayData(cardId, cardTitle, playerId, time)]
      ensures old(isSpawned) ==>
        server.allPlayersReady == (old(server.allPlayersReady) || Quorum(|server.playedCards|, connectedClients))
      ensures old(isSpawned) ==>
        server.notices == old(server.notices) + (if Quorum(|server.playedCards|, connectedClients) then [GameBoardReady] else [])
      ensures server.isSpawned == old(server.isSpawned)
    {
      if !isSpawned {
        return;
      }
      server.ReportCardPlayedServerRpc(cardId, cardTitle, playerId, time, connectedClients);
    }

    /**
     * `ReportCardPlayedServerRpc`, the body Netcode runs on the server's
     * instance (hence `isServer`): appends exactly one record, with no
     * de-duplication, then re-checks readiness.
     */
    method ReportCardPlayedServerRpc(cardId: string, cardTitle: string, playerId: nat, time: int, connectedClients: nat)
      requires isServer
      modifies this
      ensures playedCards == old(playedCards) + [CardPlayData(cardId, cardTitle, playerId, time)]
      ensures allPlayersReady == (old(allPlayersReady) || Quorum(|playedCards|, connectedClients))
      ensures notices == old(notices) + (if Quorum(|playedCards|, connectedClients) then [GameBoardReady] else [])
      ensures isSpawned == old(isSpawned)
    {
      playedCards := playedCards + [CardPlayData(cardId, cardTitle, playerId, time)];
      CheckIfAllPlayersReady(connectedClients);
    }

    /** `CheckIfAllPlayersReady`: sets readiness (never clears it) once the quorum is met. */
    method CheckIfAllPlayersReady(connectedClients: nat)
      modifies this
      ensures allPlayersReady == (old(allPlayersReady) || (isServer && Quorum(|playedCards|, connectedClients)))
      ensures notices == old(notices) + (if isServer && Quorum(|playedCards|, connectedClients) then [GameBoardReady] else [])
      ensures playedCards == old(playedCards) && isSpawned == old(isSpawned)
    {
      if !isServer {
        return;
      }
      var expectedPlayers := connectedClients - 1;
      if |playedCards| >= expectedPlayers && expectedPlayers > 0 {
        allPlayersReady := true;
        notices := notices + [GameBoardReady];
      }
    }

    /** `GetPlayedCards`: a copy of the records, in the order they were reported. */
    method GetPlayedCards() returns (cards: seq<CardPlayData>)
      ensures |cards| == |playedCards|
      ensures forall i :: 0 <= i < |cards| ==> cards[i] == playedCards[i]
    {
      cards := [];
      for i := 0 to |playedCards|
        invariant cards == playedCards[..i]
      {
        cards := cards + [playedCards[i]];
      }
    }

    /**
     * `ClearPlayedCardsServerRpc`, the body Netcode runs on the server's
     * instance: empties the list and clears readiness. Its own `IsServer`
     * guard therefore always passes.
     */
    method ClearPlayedCardsServerRpc()
      requires isServer
      modifies this
      ensures playedCards == [] && !allPlayersReady
      ensures notices == old(notices) && isSpawned == old(isSpawned)
    {
      playedCards := [];
      allPlayersReady := false;
    }
  }
}
