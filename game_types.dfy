/**
 * Value types shared by the game's server and clients. `Role` and `Phase` are
 * reconstructed from their uses (the role queue in Game/GameManager.cs and the
 * phase switch in Game/PlayerUIController.cs).
 */
module GameTypes {

  /** A player's role; `None` is the sentinel for a client that got no role. */
  datatype Role = None | Farming | Industry | Housing | Nature

  /** The phases of a round, in their default order. */
  datatype Phase = Lobby | Draw | Play | Vote | Resolve

  /** Turn number and crisis level, as Game/BoardState.cs holds them. */
  datatype BoardState = BoardState(turnNumber: int, crisisLevel: int)

  /** Per-role resource counter, as Game/SectorState.cs holds it. */
  datatype SectorState = SectorState(role: Role, resourceLevel: int)

  /** `new SectorState(role)`: a sector starts with no resources. */
  function NewSectorState(role: Role): SectorState
  {
    SectorState(role, 0)
  }
}
