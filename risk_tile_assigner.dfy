/**
 * Risk tiles owned by players and the assigner that places a risk on one of a
 * player's empty tiles (RiskDisasterSystem/RiskTileAssigner.cs). `RiskTile`
 * is modelled from its uses: an owner id, a risk slot, and `IsEmpty`.
 */
module RiskTiles {
  import opened Wrappers
  import opened Risks

  class RiskTile {
    var ownerPlayerId: string
    var currentRisk: Option<Risk>

    constructor (owner: string)
      ensures ownerPlayerId == owner && currentRisk == None
    {
      ownerPlayerId := owner;
      currentRisk := None;
    }

    predicate IsEmpty()
      reads this
    {
      currentRisk == None
    }
  }

  /** The tiles of `tiles` owned by `playerId`, in order. */
  function PlayerTiles(tiles: seq<RiskTile>, playerId: string): (r: seq<RiskTile>)
    reads tiles
    ensures |r| <= |tiles|
    ensures forall i :: 0 <= i < |r| ==> r[i] in tiles && r[i].ownerPlayerId == playerId
    ensures forall i :: 0 <= i < |tiles| && tiles[i].ownerPlayerId == playerId ==> tiles[i] in r
  {
    if |tiles| == 0 then []
    else
      var rest := PlayerTiles(tiles[1..], playerId);
      if tiles[0].ownerPlayerId == playerId then [tiles[0]] + rest else rest
  }

  /** The empty tiles of `tiles`, in order. */
  function EmptyTiles(tiles: seq<RiskTile>): (r: seq<RiskTile>)
    reads tiles
    ensures |r| <= |tiles|
    ensures forall i :: 0 <= i < |r| ==> r[i] in tiles && r[i].IsEmpty()
    ensures forall i :: 0 <= i < |tiles| && tiles[i].IsEmpty() ==> tiles[i] in r
  {
    if |tiles| == 0 then []
    else
      var rest := EmptyTiles(tiles[1..]);
      if tiles[0].IsEmpty() then [tiles[0]] + rest else rest
  }

  /** Some tile of `tiles` is owned by `playerId` and empty. */
  predicate HasFreeTile(tiles: seq<RiskTile>, playerId: string)
    reads tiles
  {
    exists i :: 0 <= i < |tiles| && tiles[i].ownerPlayerId == playerId && tiles[i].IsEmpty()
  }

  /** The two filters of the assigner select exactly the player's free tiles. */
  lemma FreeTilesFound(tiles: seq<RiskTile>, playerId: string)
    ensures |EmptyTiles(PlayerTiles(tiles, playerId))| > 0 <==> HasFreeTile(tiles, playerId)
  {
    var mine := PlayerTiles(tiles, playerId);
    var free := EmptyTiles(mine);
    if |free| > 0 {
      var t := free[0];
      var i :| 0 <= i < |tiles| && tiles[i] == t;
      assert tiles[i].ownerPlayerId == playerId && tiles[i].IsEmpty();
    }
    if HasFreeTile(tiles, playerId) {
      var i :| 0 <= i < |tiles| && tiles[i].ownerPlayerId == playerId && tiles[i].IsEmpty();
      var j :| 0 <= j < |mine| && mine[j] == tiles[i];
      assert mine[j] in free;
    }
  }

  class RiskTileAssigner {
    var boardTiles: seq<RiskTile>

    constructor (tiles: seq<RiskTile>)
      ensures boardTiles == tiles
    {
      boardTiles := tiles;
    }

    /**
     * `AssignRiskToPlayer`: succeeds iff the player owns an empty tile; then
     * exactly one such tile, chosen at random, receives the risk and every
     * other tile keeps its risk. On failure no tile changes. Owners and the
     * board list never change.
     */
    method AssignRiskToPlayer(playerId: string, risk: Option<Risk>) returns (ok: bool)
      modifies boardTiles
      ensures boardTiles == old(boardTiles)
      ensures forall t :: t in boardTiles ==> t.ownerPlayerId == old(t.ownerPlayerId)
      ensures ok <==> old(HasFreeTile(boardTiles, playerId))
      ensures !ok ==> forall t :: t in boardTiles ==> t.currentRisk == old(t.currentRisk)
      ensures ok ==> exists k :: (0 <= k < |boardTiles|
        && boardTiles[k].ownerPlayerId == playerId
        && old(boardTiles[k].currentRisk) == None
        && boardTiles[k].currentRisk == risk
        && forall t :: t in boardTiles && t != boardTiles[k] ==> t.currentRisk == old(t.currentRisk))
    {
      FreeTilesFound(boardTiles, playerId);
      var playerTiles := PlayerTiles(boardTiles, playerId);
      var emptyTiles := EmptyTiles(playerTiles);
      if |emptyTiles| == 0 {
        return false;
      }
      var pick :| 0 <= pick < |emptyTiles|;
      var selected := emptyTiles[pick];
      assert selected in playerTiles;
      var k :| 0 <= k < |boardTiles| && boardTiles[k] == selected;
      selected.currentRisk := risk;
      return true;
    }
  }
}
