/**
 * The tile-picking screen: direction input moves the cursor, each axis kept inside the map on its
 * own; Enter or a left click runs the pick callback on the cursor; Escape returns to the parent.
 */
module PickTileScreen {
  import opened Optional
  import opened Positions
  import opened Input
  import opened WorldModel
  import opened Context
  import opened Menus
  import ConfusionScrollItem

  /**
   * One direction step: the cursor moves by `dir`, but an axis whose move would leave the map
   * (tested with the other coordinate unchanged) keeps its old value.
   */
  function MoveCursor(cursor: Position, dir: Position, tiles: Grid<Tile>): (c: Position)
    ensures c.x == cursor.x || c.x == cursor.x + dir.x
    ensures c.y == cursor.y || c.y == cursor.y + dir.y
    ensures tiles.InBounds(cursor) ==> tiles.InBounds(c)
  {
    var moved := Plus(cursor, dir);
    var x := if tiles.InBounds(Position(moved.x, cursor.y)) then moved.x else cursor.x;
    var y := if tiles.InBounds(Position(cursor.x, moved.y)) then moved.y else cursor.y;
    Position(x, y)
  }

  /**
   * From a cursor inside the map, each axis moves exactly when its own move stays inside, whatever
   * the other axis does; a move that stays inside is taken whole.
   */
  lemma AxesClampIndependently(cursor: Position, dir: Position, tiles: Grid<Tile>)
    requires tiles.InBounds(cursor)
    ensures MoveCursor(cursor, dir, tiles).x ==
      (if 0 <= cursor.x + dir.x < tiles.width then cursor.x + dir.x else cursor.x)
    ensures MoveCursor(cursor, dir, tiles).y ==
      (if 0 <= cursor.y + dir.y < tiles.height then cursor.y + dir.y else cursor.y)
    ensures tiles.InBounds(Plus(cursor, dir)) ==> MoveCursor(cursor, dir, tiles) == Plus(cursor, dir)
  {
  }

  /** Enter (either return key, or keypad enter) or a left-button press. */
  predicate IsConfirm(event: Event) {
    (event.KeyDown? && IsConfirmKey(event.key)) || event == MouseButtonDown(BUTTON_LEFT)
  }

  /** The world has a player and an active map, which a direction event reads. */
  predicate CanMoveCursor(s: WorldState) {
    HasActiveMap(s) && PLAYER_ID in s.actors
  }

  /**
   * `PickTile::on_event`, for a picker opened from `parent` with callback `onPick`. The callback of
   * the confusion scroll is told the order in which the actors at the chosen tile are visited.
   */
  method OnEvent(ctx: GameContext, parent: Screen, onPick: TileCallback, event: Event, visit: seq<ActorID>)
    returns (r: StateResult)
    requires ctx.world != null
    requires GetDirFrom(event).Some? ==> CanMoveCursor(ctx.world.State())
    requires IsConfirm(event) && ctx.cursor.Some? ==>
      ConfusionScrollItem.PickNeeds(ctx.world.State(), onPick.user, onPick.item, ctx.cursor.value, visit)
    modifies ctx`cursor, ctx.world
    ensures GetDirFrom(event).Some? ==>
      var s := old(ctx.world.State());
      var start := if old(ctx.cursor).Some? then old(ctx.cursor).value else s.actors[PLAYER_ID].pos;
      && r == Stay
      && ctx.cursor == Some(MoveCursor(start, GetDirFrom(event).value, ActiveMap(s).tiles))
      && ctx.world.State() == s
    ensures IsConfirm(event) && old(ctx.cursor).None? ==>
      r == Change(parent) && ctx.cursor == None && ctx.world.State() == old(ctx.world.State())
    ensures IsConfirm(event) && old(ctx.cursor).Some? ==>
      && ctx.cursor == old(ctx.cursor)
      && ConfusionScrollItem.PickOutcome(old(ctx.world.State()), ctx.world.State(), r,
           onPick.user, onPick.item, old(ctx.cursor).value, visit)
    ensures event.KeyDown? && event.key == SDLK_ESCAPE ==>
      r == Change(parent) && ctx.cursor == old(ctx.cursor) && ctx.world.State() == old(ctx.world.State())
    ensures event.MouseMotion? ==>
      r == Stay && ctx.cursor == Some(Position(event.x, event.y)) && ctx.world.State() == old(ctx.world.State())
    ensures event == WindowMouseLeave ==>
      r == Stay && ctx.cursor == None && ctx.world.State() == old(ctx.world.State())
    ensures event == QuitRequested ==>
      r == Quit && ctx.cursor == old(ctx.cursor) && ctx.world.State() == old(ctx.world.State())
    ensures (GetDirFrom(event).None? && !IsConfirm(event) && !(event.KeyDown? && event.key == SDLK_ESCAPE)
      && !event.MouseMotion? && event != WindowMouseLeave && event != QuitRequested) ==>
      r == Stay && ctx.cursor == old(ctx.cursor) && ctx.world.State() == old(ctx.world.State())
  {
    var dir := GetDirFrom(event);
    if dir.Some? {
      var world := ctx.world;
      if ctx.cursor.None? {
        ctx.cursor := Some(world.actors[PLAYER_ID].pos);
      }
      var tiles := world.maps[world.currentMapId].tiles;
      var cursor := ctx.cursor.value;
      var newCursor := Plus(cursor, dir.value);
      if !tiles.InBounds(Position(newCursor.x, cursor.y)) {
        newCursor := newCursor.(x := cursor.x);
      }
      if !tiles.InBounds(Position(cursor.x, newCursor.y)) {
        newCursor := newCursor.(y := cursor.y);
      }
      ctx.cursor := Some(newCursor);
      return Stay;
    }
    match event
    case KeyDown(key, _) =>
      if IsConfirmKey(key) {
        r := OnPick(ctx, parent, onPick, visit);
      } else if key == SDLK_ESCAPE {
        r := Change(parent);
      } else {
        r := Stay;
      }
    case MouseButtonDown(button) =>
      if button == BUTTON_LEFT {
        r := OnPick(ctx, parent, onPick, visit);
      } else {
        r := Stay;
      }
    case MouseMotion(x, y) =>
      ctx.cursor := Some(Position(x, y));
      r := Stay;
    case WindowMouseLeave =>
      ctx.cursor := None;
      r := Stay;
    case QuitRequested =>
      r := Quit;
    case _ =>
      r := Stay;
  }

  /** `on_pick`: with no cursor, back to the parent; otherwise the callback on the cursor's tile. */
  method OnPick(ctx: GameContext, parent: Screen, onPick: TileCallback, visit: seq<ActorID>) returns (r: StateResult)
    requires ctx.world != null
    requires ctx.cursor.Some? ==>
      ConfusionScrollItem.PickNeeds(ctx.world.State(), onPick.user, onPick.item, ctx.cursor.value, visit)
    modifies ctx.world
    ensures ctx.cursor.None? ==> r == Change(parent) && ctx.world.State() == old(ctx.world.State())
    ensures ctx.cursor.Some? ==> ConfusionScrollItem.PickOutcome(old(ctx.world.State()), ctx.world.State(), r,
      onPick.user, onPick.item, ctx.cursor.value, visit)
  {
    if ctx.cursor.None? {
      return Change(parent);
    }
    match onPick
    case ConfusionPick(user, item) =>
      r := ConfusionScrollItem.OnPick(ctx, user, item, ctx.cursor.value, visit);
  }
}
