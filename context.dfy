/**
 * The game context threaded through actions, items and screens: the world (absent before a game
 * starts), the picking cursor, and the current screen; plus the results that actions and screens
 * hand back to the driving loop.
 */
module Context {
  import opened Optional
  import opened Positions
  import opened WorldModel
  import opened Menus

  /** The three boosts the level-up menu offers; each tags one of its item callbacks. */
  datatype LevelUpChoice = Constitution | Strength | Agility

  /**
   * The callback a tile-picking screen runs on the chosen tile. The one the game defines is the
   * confusion scroll's, which remembers its user and the inventory entry of the scroll.
   */
  datatype TileCallback = ConfusionPick(user: ActorID, item: nat)

  /**
   * The screens. A picking screen owns the screen it was opened from (`parent_`), which cancelling
   * returns to; the inventory picker's callback belongs to its opener and is passed to its handler.
   */
  datatype Screen =
    | MainMenu
    | InGame
    | Dead
    | LevelUpMenu(menu: Menu<LevelUpChoice>)
    | PickTile(parent: Screen, onPick: TileCallback)
    | PickInventory(parent: Screen)

  /** What a screen's event handler asks the driving loop for; `Stay` is the empty result. */
  datatype StateResult = Stay | Change(next: Screen) | Quit | EndTurn | Reset

  /** What an action or an item use reports. */
  datatype ActionResult = Success | Failure(reason: string) | Poll(next: Screen)

  class GameContext {
    var world: World?
    var cursor: Option<Position>
    var state: Screen

    constructor (world: World?, state: Screen)
      ensures this.world == world && cursor == None && this.state == state
    {
      this.world := world;
      cursor := None;
      this.state := state;
    }
  }
}
