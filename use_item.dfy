/** The use-item action: a bounds check on the inventory index, then the item's own use. */
module UseItemAction {
  import opened Optional
  import opened WorldModel
  import opened Context
  import HealthPotionItem
  import ConfusionScrollItem

  const NO_ITEM_MESSAGE := "You don't have that item."

  /** `UseItem`: the index of the inventory entry to use. */
  datatype UseItem = UseItem(itemIndex: int)

  /** The constructor: an index is never negative. */
  function NewUseItem(itemIndex: int): (action: UseItem)
    requires itemIndex >= 0
    ensures action.itemIndex == itemIndex && action.itemIndex >= 0
  {
    UseItem(itemIndex)
  }

  /**
   * What the item an in-range index picks needs from its caller: a potion a charge to drink, a
   * scroll an active map and the answer of the nearest-actor query.
   */
  predicate UseNeeds(s: WorldState, id: ActorID, index: int, nearest: Option<ActorID>) {
    && id in s.actors
    && (0 <= index < |s.actors[id].stats.inventory| ==>
          match s.actors[id].stats.inventory[index].kind
          case HealthPotion => HealthPotionItem.CanDrink(s, id, index)
          case ConfusionScroll =>
            HasActiveMap(s) && ConfusionScrollItem.IsNearestResult(s, id, nearest))
  }

  /**
   * `UseItem::perform`: an index past the inventory fails with "You don't have that item." and
   * changes nothing; otherwise the result and the effect are exactly those of the item's use.
   */
  method Perform(action: UseItem, ctx: GameContext, id: ActorID, nearest: Option<ActorID>) returns (r: ActionResult)
    requires action.itemIndex >= 0
    requires ctx.world != null && UseNeeds(ctx.world.State(), id, action.itemIndex, nearest)
    modifies ctx.world, ctx`cursor
    ensures var inventory := old(ctx.world.actors[id].stats.inventory);
      action.itemIndex >= |inventory| ==>
        && r == Failure("You don't have that item.")
        && ctx.world.State() == old(ctx.world.State())
        && ctx.cursor == old(ctx.cursor)
    ensures var inventory := old(ctx.world.actors[id].stats.inventory);
      action.itemIndex < |inventory| && inventory[action.itemIndex].kind == HealthPotion ==>
        && r == Success
        && ctx.world.State() == HealthPotionItem.Drunk(old(ctx.world.State()), id, action.itemIndex)
        && ctx.cursor == old(ctx.cursor)
    ensures var inventory := old(ctx.world.actors[id].stats.inventory);
      action.itemIndex < |inventory| && inventory[action.itemIndex].kind == ConfusionScroll ==>
        && r == Poll(PickTile(ctx.state, ConfusionPick(id, action.itemIndex)))
        && ctx.cursor == Some(ConfusionScrollItem.AimAt(old(ctx.world.State()), id, nearest))
        && ctx.world.State() == old(ctx.world.State())
  {
    var inventory := ctx.world.actors[id].stats.inventory;
    if action.itemIndex >= |inventory| {
      return Failure(NO_ITEM_MESSAGE);
    }
    var item := inventory[action.itemIndex];
    match item.kind
    case HealthPotion =>
      r := HealthPotionItem.Use(ctx, id, action.itemIndex);
    case ConfusionScroll =>
      r := ConfusionScrollItem.Use(ctx, id, action.itemIndex, nearest);
  }
}
