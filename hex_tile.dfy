/** A board cell (Game/HexTile.cs) with its single risk slot. */
module HexTiles {
  import opened Wrappers
  import opened Risks

  class HexTile {
    var id: int
    /** The risk on this tile; `None` when the tile is empty. */
    var activeRisk: Option<Risk>

    /** A new tile has no risk. */
    constructor (tileId: int)
      ensures id == tileId && activeRisk == None
    {
      id := tileId;
      activeRisk := None;
    }

    /**
     * `SetRisk`: the tile holds the given risk afterwards; setting the risk
     * it already holds changes nothing.
     */
    method SetRisk(risk: Option<Risk>)
      modifies this
      ensures activeRisk == risk && GetRisk() == risk
      ensures id == old(id)
    {
      if activeRisk.Some? && activeRisk == risk {
        return;
      }
      activeRisk := risk;
    }

    /** `ClearRisk`: the tile is empty afterwards. */
    method ClearRisk()
      modifies this
      ensures activeRisk == None && !HasRisk()
      ensures id == old(id)
    {
      activeRisk := None;
    }

    /** `GetRisk`: the current risk, or null. */
    function GetRisk(): Option<Risk>
      reads this
    {
      activeRisk
    }

    /** `HasRisk`: whether `GetRisk` would return a risk. */
    function HasRisk(): (b: bool)
      reads this
      ensures b <==> GetRisk().Some?
    {
      activeRisk.Some?
    }
  }
}
