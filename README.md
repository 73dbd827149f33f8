# Turn logic of a libtcod roguelike, modelled in Dafny

This project models the turn-level game logic of a small C++ roguelike built on libtcod and SDL3.
One `World` holds:

- the actor table (actor 0 is the player);
- the set of active actors;
- the turn schedule;
- the maps, keyed by `MapID`. Each map has a tile grid, `explored`/`visible` grids, fixtures and an item multimap keyed by position;
- the random-number generator;
- the message log. The model keeps every appended message in order. The lines the game stores, where a message repeated straight after itself raises a repeat count instead of adding a line, are `Collapsed(log)`.

Over that world the model covers:

- **combat**: damage, kill, destroy and clamped heal;
- **inventory actions**: pick-up with stacking by name, consuming one charge, and the use-item bounds check;
- **item effects**: the health potion; the scroll of confusion, with its auto-aim and its pick-tile callback;
- **the confused AI wrapper**;
- **the four input screens**: the generic menu, tile picking, inventory picking and level-up;
- **the value types**: `Position` and `MapID`;
- **the key-to-direction table**;
- **the initial world**.

The source changes state in place, and the model keeps that form:

- `World` (`world.dfy`) is a class with one field per source field. `State()` packs the fields into a `WorldState` value.
- Every operation that mutates the world is a method. Its postcondition equals the new state to a specification function of the old state (`Killed`, `PickedUp`, `Drunk`, `PickOutcome`, …). Lemmas state what those functions promise.
- The menu is a class whose `selected` field the handlers update. The hotkey search is a loop.
- The initial map is filled by nested loops over the grid.

The source threads the world through one of two parameters, `World&` or `GameContext&`, depending on the signature. The model threads a single `GameContext` instead (`context.dfy`). It holds the world, the cursor and the current screen.

Callbacks are defunctionalised:

- A menu item carries a tag; `Menu.OnEvent` returns `Activate(tag)`, and the level-up screen runs the chosen boost.
- The tile-picking screen holds a `TileCallback`. The only one the game defines is `ConfusionPick(user, item)`.
- The inventory screen's callback is a function parameter `(WorldState, int) -> (WorldState, StateResult)`. It receives the world and the picked index, and gives the new world and the screen's result.

An inventory entry is identified by its index in the inventory. The source uses the item's address.

Code that these files call but that is not part of this model enters as parameters:

- `Bump` is a transformer `(WorldState, ActorID, Position) -> (WorldState, ActionResult)`: it gives the new world and the result of bumping that way.
- `next_level_xp` is a function `int -> int`.
- `get_nearest_actor`'s answer is an `Option<ActorID>`. It is constrained to be a visible active actor other than the user, and to be absent only when there is none.
- The order in which `with_actors_at` visits the actors on a tile is a sequence. It lists each active actor there exactly once.
- The generator's outputs are a function of the seed and the draw number.
- The map size and the seed are parameters of `NewWorld`.

## Model

| member | source | states |
|---|---|---|
| Positions.Hash | src/types/position.hpp:15-18 | the hash `x + 97*y` taken as a `size_t`, so it lies in [0, 2^64) |
| Positions.PlusMinusRoundTrip | src/types/position.hpp:7-8 | `(p + q) - q == p` and `(p - q) + q == p` |
| Positions.EqualsIsEquality | src/types/position.hpp:9-10 | `==` holds iff both coordinates are equal, `!=` iff not |
| Positions.HashRespectsEquals | src/types/position.hpp:17 | equal positions hash equally |
| Positions.HashInjectiveOnNarrowGrid | src/types/position.hpp:17 | on grids narrower than 97 columns the hash never collides |
| MapIds.Named | src/types/map_id.hpp:11-12 | an id built from a name alone has the default level 0 |
| MapIds.EqualsIsEquality | src/types/map_id.hpp:6-9 | `==` holds iff name and level are equal, `!=` iff not |
| MapIds.HashRespectsEquals | src/types/map_id.hpp:17-19 | equal ids hash equally, whatever the string and integer hashes are |
| MapIds.HashSeparatesLevels | src/types/map_id.hpp:17-19 | ids with the same name hash differently when the level hashes differ (XOR cancels the name) |
| Input.ModifiedY | src/input_tools.hpp:12 | -1 exactly with shift alone, +1 exactly with control alone, 0 otherwise |
| Input.GetDirFrom | src/input_tools.hpp:9-65 | only key-down events give a direction; a direction comes exactly for the mapped keys; every direction is a unit step |
| Input.WaitKeys | src/input_tools.hpp:14-16 | period and keypad 5 give (0,0) under any modifiers |
| Input.UpDownIgnoreModifiers | src/input_tools.hpp:17-20 | up and down ignore the modifiers |
| Input.LeftRightModifiers | src/input_tools.hpp:12-24 | left/right go up a row with shift, down with control, straight with both or neither |
| Input.ViAndKeypadMatchArrows | src/input_tools.hpp:17-53 | vi keys and keypad keys give the same straight directions as the arrows |
| Input.ViAndKeypadMatchDiagonals | src/input_tools.hpp:25-56 | vi keys and keypad keys give the same diagonals as Home/End/PageUp/PageDown |
| Input.EveryUnitDirectionHasAKey | src/input_tools.hpp:14-56 | each of the nine unit directions is produced by some key |
| WorldModel.NewItem | src/types/item.hpp:19 | a new item has count 1 |
| WorldModel.Pushed | src/rendering.hpp:90-100 | a message equal to the last line's text raises that line's count and keeps the other lines; any other message adds one line with count 1 |
| WorldModel.Collapsed | src/rendering.hpp:90-100 | the stored log has no more lines than messages, each line counts at least one message, neighbouring lines never repeat a text, and the last line holds the last message |
| WorldModel.ExpandedPushed | src/rendering.hpp:90-100 | pushing a message adds exactly that message to the stream the stored log stands for |
| WorldModel.CollapsedRoundTrip | src/rendering.hpp:90-100 | collapsing loses nothing: expanding each line `count` times gives back every message in order |
| WorldModel.LoggingCollapsesRepeats | src/rendering.hpp:90-100 | logging the last message again adds no line and raises the last count by one; any other message adds one line |
| Combat.CalculateDamage | src/combat.hpp:32-36 | damage is `max(0, attack - defense)`: never negative, never below `attack - defense` |
| Combat.Destroy | src/combat.hpp:8-11 | the world after `destroy` is `Destroyed` of the world before |
| Combat.DestroyErasesOnlyTheId | src/combat.hpp:8-11 | the id leaves `actors` and `active_actors`; every other actor and every other field is unchanged |
| Combat.Kill | src/combat.hpp:13-23 | the world after `kill` is `Killed` of the world before |
| Combat.KillPlayerOnlyLogs | src/combat.hpp:14-15 | killing the player only appends "You have died!" |
| Combat.KillNonPlayerRewards | src/combat.hpp:16-22 | killing another actor adds its xp to the player's xp, removes it from both collections, and logs only when its tile is visible |
| Combat.ApplyDamage | src/combat.hpp:25-30 | the world after `apply_damage` is `Damaged` of the world before |
| Combat.DamageKillsIffHpGone | src/combat.hpp:25-30 | hp drops by exactly the damage; the target is killed iff the new hp is at most 0 |
| Combat.Attack | src/combat.hpp:38-48 | the world after `attack` is `Attacked` of the world before |
| Combat.AttackAppliesCalculatedDamage | src/combat.hpp:38-48 | a surviving target loses exactly `CalculateDamage` hp and nothing else; the player keeps the lowered hp even at 0; a monster brought to 0 leaves `actors` and `active_actors` and its xp goes to the player; other actors, maps, schedule and generator are unchanged |
| Combat.AttackLogsFirst | src/combat.hpp:40-47 | the attack message is logged before anything else, exactly when either tile is visible; a survivor's attack logs nothing more |
| Combat.DamagedKeepsTheRest | src/combat.hpp:25-30 | after damage the log only grows; a survivor only loses hp; the player keeps the lowered hp; a monster at 0 is gone and its xp goes to the player; other actors, maps, schedule and generator are unchanged |
| Combat.HealAmount | src/combat.hpp:51 | the amount healed never exceeds the request and never lifts hp above max hp; it is the request or exactly fills up to max hp |
| Combat.Heal | src/combat.hpp:50-57 | returns `min(amount, maxHp - hp)`, and the world becomes `Healed` of the world before |
| Combat.HealClampsToMaxHp | src/combat.hpp:50-57 | the amount is `min(amount, maxHp - hp)`; new hp is old hp plus that amount and never above max hp; no other stat and no other actor changes |
| ItemTools.Consumed | src/item_tools.hpp:17-22 | one charge gone: an exhausted entry is erased with the others' order kept, otherwise only its count drops by one |
| ItemTools.ConsumedIn | src/item_tools.hpp:14-22 | the owner's inventory becomes `Consumed` of it and nothing else about the owner changes; every other actor, the actor table's keys and every other field of the world are unchanged |
| ItemTools.ConsumeDiscardItem | src/item_tools.hpp:10-23 | the world becomes `ConsumedIn`; the result is no entry when the stack ran out, else the same index |
| ItemTools.ConsumedRemovesOneUnit | src/item_tools.hpp:17-21 | the total item count in the inventory drops by exactly one |
| ItemTools.ConsumedKeepsNamesDistinct | src/item_tools.hpp:15-19 | an inventory without duplicate names keeps none |
| Pickup.FindStack | src/actions/pickup.hpp:18-21 | the index returned is the first stack with that name; nothing is returned iff no stack has it |
| Pickup.Perform | src/actions/pickup.hpp:10-32 | the world and result after the loop-based pick-up equal `PickedUp` of the world before |
| Pickup.FirstNameMatchIsFound | src/actions/pickup.hpp:18-21 | the first stack with the name is the one found |
| Pickup.NothingToPickupChangesNothing | src/actions/pickup.hpp:13-16 | an empty tile gives "Nothing to pickup!" and no change |
| Pickup.PickupSucceedsAndLogs | src/actions/pickup.hpp:17-31 | with an item on the tile: success, "You take the {name}." appended, and only the actor and the current map change |
| Pickup.StackedMergesOrAppends | src/actions/pickup.hpp:18-29 | the first same-name stack grows by the picked count with the length kept, or the item is appended as the last entry |
| Pickup.StackedKeepsNamesDistinct | src/actions/pickup.hpp:18-29 | stacking keeps an inventory free of duplicate names |
| Pickup.StackedAddsItsCount | src/actions/pickup.hpp:25-29 | the inventory's total count grows by exactly the picked count |
| Pickup.PickupMovesOneEntry | src/actions/pickup.hpp:24-30 | one entry leaves the actor's tile, other tiles are untouched, and total items in inventory plus tile are conserved |
| UseItemAction.NewUseItem | src/actions/use_item.hpp:14 | a use-item action holds a non-negative index |
| UseItemAction.Perform | src/actions/use_item.hpp:15-21 | an index past the inventory fails with "You don't have that item." and changes nothing; otherwise the result and effects are those of the item at that index |
| HealthPotionItem.Use | src/items/health_potion.hpp:15-21 | always succeeds, and the world becomes `Drunk` of the world before |
| HealthPotionItem.DrinkingHealsAndConsumesOne | src/items/health_potion.hpp:15-21 | the drink message comes first; the drinker is healed by `min(4, maxHp - hp)`; exactly one potion is consumed |
| ConfusionScrollItem.AimAt | src/items/scroll_confusion.hpp:44-49 | the aim is the nearest visible other actor's position, or the user's own position if there is none |
| ConfusionScrollItem.AimFindsAVisibleOtherWhenThereIsOne | src/items/scroll_confusion.hpp:44-49 | the aim lands on another actor iff some other active actor is visible |
| ConfusionScrollItem.Use | src/items/scroll_confusion.hpp:42-50 | the cursor is set to the aim; the result polls a tile picker whose parent is the current screen |
| ConfusionScrollItem.ActorsAt | src/items/scroll_confusion.hpp:30 | exactly the active actors standing on the tile |
| ConfusionScrollItem.Confuse | src/items/scroll_confusion.hpp:34 | confusion becomes `max(old, 10)` and nothing else about the actor changes |
| ConfusionScrollItem.ConfuseIdempotent | src/items/scroll_confusion.hpp:34 | confusing twice is the same as once |
| ConfusionScrollItem.VacantLog | src/items/scroll_confusion.hpp:30-35 | at most one message per visited actor |
| ConfusionScrollItem.VacantLogNamesVisited | src/items/scroll_confusion.hpp:30-35 | every message names a visited actor other than the user |
| ConfusionScrollItem.VacantLogCoversVisited | src/items/scroll_confusion.hpp:30-35 | every visited actor other than the user gets its message |
| ConfusionScrollItem.OnPick | src/items/scroll_confusion.hpp:22-40 | the pick callback's effect and result are `PickOutcome`: can't see, no target, or hit |
| ConfusionScrollItem.ConfuseVisited | src/items/scroll_confusion.hpp:29-35 | after the visit loop, the flag is false iff the user was the only actor visited; the others are confused and named in order |
| ConfusionScrollItem.VisitNext | src/items/scroll_confusion.hpp:31-34 | one visit step extends the confused table and the log by the next actor, skipping the user |
| ConfusionScrollItem.ConfuseOne | src/items/scroll_confusion.hpp:33-34 | one target: its message appended, its confusion raised |
| ConfusionScrollItem.NoHitMeansNoTarget | src/items/scroll_confusion.hpp:31-37 | a visit that met only the user means no target stands there |
| ConfusionScrollItem.HitMeansTarget | src/items/scroll_confusion.hpp:31-39 | a visit that met another actor means a target stands there |
| ConfusionScrollItem.ConfusionNeverDecreases | src/items/scroll_confusion.hpp:30-35 | no actor disappears, nobody's confusion drops, each target ends with at least 10, everyone else is unchanged |
| ConfusionScrollItem.ScrollConsumedOnlyOnHit | src/items/scroll_confusion.hpp:24-39 | the turn ends iff the tile is visible and holds a target; then exactly one scroll is consumed; otherwise Reset and no actor changes |
| ConfusionScrollItem.OneMessagePerTarget | src/items/scroll_confusion.hpp:24-35 | an unseen tile logs only "You can't see anything there!"; otherwise the new messages name exactly the targets |
| ConfusedAIAction.RandomDirection | src/actions/ai_confused.hpp:10 | both components of the random step lie in {-1, 0, 1} |
| ConfusedAIAction.RandomDirectionReachesEveryDirection | src/actions/ai_confused.hpp:10 | a step is drawn iff the two draws are congruent to its components plus one, so every step can occur |
| ConfusedAIAction.Remapped | src/actions/ai_confused.hpp:12 | a failure becomes success; every other result passes through |
| ConfusedAIAction.RemappedNeverFails | src/actions/ai_confused.hpp:11-13 | the remapped result is never a failure, and remapping is idempotent |
| ConfusedAIAction.AfterDraws | src/actions/ai_confused.hpp:10 | two draws advance the generator by two and change nothing else |
| ConfusedAIAction.ConfusedTurnNeverFails | src/actions/ai_confused.hpp:8-14 | a confused turn never fails; the bump gets the world after exactly two draws and a unit direction; the world it produces is the new world; a non-failure result passes through unchanged |
| ConfusedAIAction.Perform | src/actions/ai_confused.hpp:8-14 | the new world and the result are `ConfusedTurn`: two draws, then the bump toward their direction, with a failure remapped to success |
| Menus.SelectedItem | src/states/menu.hpp:111-114 | an item is selected iff the index is in range, and it is the item at that index |
| Menus.NavigationWraps | src/states/menu.hpp:72-81 | up gives `(s-1+n) mod n` from a valid selection or n-1 from an invalid one; down gives `(s+1) mod n` or 0; both land in [0, n) |
| Menus.UpDownRoundTrip | src/states/menu.hpp:72-81 | up after down, and down after up, restore a valid selection |
| Menus.FirstHotkey | src/states/menu.hpp:90-100 | the index found is the first item whose non-zero key matches; none iff no item matches |
| Menus.FirstMatchIsFirstHotkey | src/states/menu.hpp:90-100 | the first matching item is the one found |
| Menus.ConfirmActivatesOnlyInRange | src/states/menu.hpp:63-88 | Enter and left-click activate the selected item only when the selection is in range, and keep the selection |
| Menus.HotkeyActivatesFirstMatch | src/states/menu.hpp:90-100 | a hotkey selects and activates the first match; key 0 never matches; without a match nothing happens |
| Menus.NavigationAndOtherEvents | src/states/menu.hpp:23-61 | up/down only move the selection; motion sets `y - 10`; Quit quits; every other event does nothing |
| Menus.Menu.constructor | src/states/menu.hpp:21 | the menu holds the given items and selection |
| Menus.Menu.OnEvent | src/states/menu.hpp:23-36 | the new selection and the response are `SelectionAfter`/`ResponseTo` of the old selection and the event |
| Menus.Menu.HandleKeyDown | src/states/menu.hpp:39-55 | the same, for key-down events |
| Menus.Menu.HandleMouseMotion | src/states/menu.hpp:57-61 | the selection becomes the mouse row minus 10, unclamped |
| Menus.Menu.HandleMouseButtonUp | src/states/menu.hpp:63-70 | a left release activates the selected item if any; other buttons do nothing |
| Menus.Menu.NavigateUp | src/states/menu.hpp:72-76 | the selection moves up with wrap-around |
| Menus.Menu.NavigateDown | src/states/menu.hpp:78-81 | the selection moves down with wrap-around, on a non-empty menu |
| Menus.Menu.HandleSelection | src/states/menu.hpp:83-88 | activates the selected item if the selection is in range |
| Menus.Menu.HandleHotkeySelection | src/states/menu.hpp:90-100 | the loop selects and activates the first match, or changes nothing |
| PickTileScreen.MoveCursor | src/states/pick_tile.hpp:21-26 | each axis keeps its value or moves by the step, and an in-bounds cursor stays in bounds |
| PickTileScreen.AxesClampIndependently | src/states/pick_tile.hpp:21-25 | each axis moves iff its own move stays on the map; an in-bounds target is reached exactly |
| PickTileScreen.OnEvent | src/states/pick_tile.hpp:16-59 | a direction moves the cursor, starting from the player when there is none, and returns nothing; confirm picks; Escape returns to the parent; motion sets the cursor; leaving the window clears it; Quit quits; everything else does nothing |
| PickTileScreen.OnPick | src/states/pick_tile.hpp:64-67 | with no cursor, back to the parent with the world unchanged; otherwise the callback's outcome on the cursor tile |
| PickInventoryScreen.KeyIndex | src/states/pick_inventory.hpp:27-28 | a key gives an index iff it is a letter a-z, and the index is its offset from a, below 26 |
| PickInventoryScreen.LetterForEveryIndex | src/states/pick_inventory.hpp:27-28 | every index 0-25 is reached by its letter |
| PickInventoryScreen.PickOutcome | src/states/pick_inventory.hpp:18-39 | Escape returns to the parent; a letter gives the callback's world and result for its index, below 26; Quit quits; everything else gives Stay; only a letter can change the world |
| PickInventoryScreen.OnEvent | src/states/pick_inventory.hpp:18-39 | the world and result become `PickOutcome` of the world before, over the whole-world frame; any event other than a letter leaves the world unchanged |
| LevelUpScreen.ChoiceChangesOnlyItsBoost | src/states/levelup.hpp:14-43 | Constitution adds 20 to hp and max hp, Strength 1 to attack, Agility 1 to defense; xp drops by the old level's threshold, the level rises by one, nothing else changes |
| LevelUpScreen.RunChoice | src/states/levelup.hpp:14-29 | a choice applies its boost and the level-up, and returns Reset |
| LevelUpScreen.LevelUpDoneStep | src/states/levelup.hpp:38-43 | xp drops by `next_level_xp(level)`, the level rises by one, the result is Reset |
| LevelUpScreen.NewLevelUp | src/states/levelup.hpp:11-35 | the screen has the three boosts and the given selection, and the log gains "Your battle skills grow stronger! You reached level {level + 1}.", where level is the player's level when the screen opens |
| LevelUpScreen.OnEvent | src/states/levelup.hpp:12-30 | the menu's response is carried out: an activated row runs its boost |
| LevelUpScreen.SelectedRowPicksItsBoost | src/states/levelup.hpp:13-29 | confirming activates row 0, 1 or 2 as Constitution, Strength, Agility; a hotkey never activates, since the rows have none |
| WorldInit.FillAll | src/world_init.hpp:22-29 | after the row-by-row loop every cell holds the value |
| WorldInit.FillBorder | src/world_init.hpp:25 | border cells hold the value; every other cell is unchanged |
| WorldInit.NewWorld | src/world_init.hpp:10-58 | the new world is `IsInitialWorld`: one current dungeon map, walled, all explored and visible, stairs at (40,23), the player alone at (40,25), schedule [0], one welcome message |
| WorldInit.InitialWorldIsPlayable | src/world_init.hpp:38-53 | on a large enough map the player is alive at full health, active and first in the schedule, on a visible floor tile, and the stairs are on floor |

## Left out

- Rendering and drawing (`on_draw`, consoles, colours, glyphs, the menu and inventory layouts): UI only, with floating point in the health bar.
- The SDL application callbacks, data-directory search, tileset loading, and the main, in-game, dead and area-pick screens: I/O plumbing or stubs. The tile picker with area highlight only adds drawing.
- Log colours: messages are plain strings.
- The log class is not part of this model. Its merging of a message repeated straight after itself into a count is taken from how the log is drawn, which prints a line's text with its count; `Collapsed` states that rule.
- The 32-bit `int` arithmetic on positions, hp and xp is modelled with unbounded integers, so overflow is not modelled.
- The random generator's algorithm and its seeding from the system: the outputs are a parameter indexed by seed and draw number.
- `Bump` is not part of this model. It enters as a parameter: any transformer of the world that also gives a result.
- PickInventoryScreen.OnEvent: the callback receives the world and the index, but not the cursor or the current screen that the context also holds. The screen that opens the inventory picker, and so its callback, is not part of this model.
- The distance measure behind `get_nearest_actor` is not part of this model. Its answer is a parameter: a visible active actor other than the user, absent only when there is none.
- The order in which `with_actors_at` visits a tile's actors is a parameter. It lists each active actor on the tile exactly once.
- `with_border`'s shape is taken to be the outermost ring of the grid; `maptools.hpp` is not part of this model.
- The `World`, `Map`, `Array2D` and `Stats` definitions are not part of this model. `visible.at` outside the grid is taken as "not visible". The player's confusion and inventory are taken to start at 0 and empty.
- Ownership transfer: a moved-from parent screen or state is not modelled. A screen is a value and the parent is passed on.
- Mouse coordinate conversion: motion events carry tile coordinates already.
- Item identity is the inventory index rather than the item's address. The item multimap keeps the entries on a tile in a sequence; its first element is the entry `equal_range` yields first.
- The mismatched `World&`/`GameContext&` signatures are unified: one context is passed everywhere.
- The `hash` specialisations of the standard library for strings and integers are parameters of `MapIds.Hash`.
- UseItemAction.Perform: delegates only to the two item kinds the game defines, the health potion and the scroll of confusion.
- ConfusionScrollItem.OneMessagePerTarget: states that the new messages name exactly the set of targets, each named at least once and only targets named. That each is named exactly once follows from `VacantLog`'s bound and the visit order, but it is not stated as a count.
- PickTileScreen.OnEvent: the confirm path models only the scroll-of-confusion callback, the only pick-tile callback the game defines.
