/**
 * The level-up screen: a three-item menu of stat boosts. Choosing one applies the boost, spends the
 * experience the level cost, raises the level and resets to normal play.
 */
module LevelUpScreen {
  import opened WorldModel
  import opened Input
  import opened Menus
  import opened Context

  /** The menu's items, in order; none has a hotkey. */
  const LEVEL_UP_ITEMS: seq<MenuItem<LevelUpChoice>> := [
    MenuItem("Constitution (+20HP)", Constitution, 0),
    MenuItem("Strength (+1 attack)", Strength, 0),
    MenuItem("Agility (+1 defense)", Agility, 0)
  ]

  /** The boost itself: +20 hp and max hp, +1 attack, or +1 defense. */
  function Boosted(stats: Stats, choice: LevelUpChoice): Stats {
    match choice
    case Constitution => stats.(hp := stats.hp + 20, maxHp := stats.maxHp + 20)
    case Strength => stats.(attack := stats.attack + 1)
    case Agility => stats.(defense := stats.defense + 1)
  }

  /** `level_up_done` on the player's stats; `xpCurve` is `next_level_xp`. */
  function LevelUpDone(stats: Stats, xpCurve: int -> int): Stats {
    stats.(xp := stats.xp - xpCurve(stats.level), level := stats.level + 1)
  }

  /** The world after a choice. */
  function Chosen(s: WorldState, choice: LevelUpChoice, xpCurve: int -> int): WorldState
    requires PLAYER_ID in s.actors
  {
    WithStats(s, PLAYER_ID, LevelUpDone(Boosted(s.actors[PLAYER_ID].stats, choice), xpCurve))
  }

  /**
   * Every choice subtracts the old level's threshold from xp and adds one level; Constitution adds
   * 20 to hp and max hp, Strength 1 to attack, Agility 1 to defense; no other stat, no other actor
   * and nothing else in the world changes.
   */
  lemma ChoiceChangesOnlyItsBoost(s: WorldState, choice: LevelUpChoice, xpCurve: int -> int)
    requires PLAYER_ID in s.actors
    ensures var before := s.actors[PLAYER_ID].stats;
      var t := Chosen(s, choice, xpCurve);
      var after := t.actors[PLAYER_ID].stats;
      && after.xp == before.xp - xpCurve(before.level)
      && after.level == before.level + 1
      && after.hp == before.hp + (if choice == Constitution then 20 else 0)
      && after.maxHp == before.maxHp + (if choice == Constitution then 20 else 0)
      && after.attack == before.attack + (if choice == Strength then 1 else 0)
      && after.defense == before.defense + (if choice == Agility then 1 else 0)
      && after.confusedTurns == before.confusedTurns
      && after.inventory == before.inventory
      && t.actors[PLAYER_ID] == s.actors[PLAYER_ID].(stats := after)
      && t.actors.Keys == s.actors.Keys
      && (forall other :: other in s.actors && other != PLAYER_ID ==> t.actors[other] == s.actors[other])
      && t.(actors := s.actors) == s
  {
  }

  /** The menu item callbacks: the boost on the player, then `level_up_done`. */
  method RunChoice(ctx: GameContext, choice: LevelUpChoice, xpCurve: int -> int) returns (r: StateResult)
    requires ctx.world != null && PLAYER_ID in ctx.world.actors
    modifies ctx.world`actors
    ensures r == Reset
    ensures ctx.world.State() == Chosen(old(ctx.world.State()), choice, xpCurve)
  {
    var world := ctx.world;
    var player := world.actors[PLAYER_ID];
    match choice {
      case Constitution =>
        player := player.(stats := player.stats.(hp := player.stats.hp + 20));
        player := player.(stats := player.stats.(maxHp := player.stats.maxHp + 20));
      case Strength =>
        player := player.(stats := player.stats.(attack := player.stats.attack + 1));
      case Agility =>
        player := player.(stats := player.stats.(defense := player.stats.defense + 1));
    }
    world.actors := world.actors[PLAYER_ID := player];
    r := LevelUpDoneStep(ctx, xpCurve);
  }

  /** `level_up_done`. */
  method LevelUpDoneStep(ctx: GameContext, xpCurve: int -> int) returns (r: StateResult)
    requires ctx.world != null && PLAYER_ID in ctx.world.actors
    modifies ctx.world`actors
    ensures r == Reset
    ensures ctx.world.State() ==
      WithStats(old(ctx.world.State()), PLAYER_ID, LevelUpDone(old(ctx.world.actors[PLAYER_ID].stats), xpCurve))
  {
    var world := ctx.world;
    var player := world.actors[PLAYER_ID];
    player := player.(stats := player.stats.(xp := player.stats.xp - xpCurve(player.stats.level)));
    player := player.(stats := player.stats.(level := player.stats.level + 1));
    world.actors := world.actors[PLAYER_ID := player];
    r := Reset;
  }

  function LevelUpMessage(level: int): string {
    "Your battle skills grow stronger! You reached level " + IntToString(level + 1) + "."
  }

  /** The constructor: the menu of the three boosts, and a message naming the level about to be reached. */
  method NewLevelUp(ctx: GameContext, selected: int) returns (menu: Menu<LevelUpChoice>)
    requires ctx.world != null && PLAYER_ID in ctx.world.actors
    modifies ctx.world`log
    ensures fresh(menu) && menu.items == LEVEL_UP_ITEMS && menu.selected == selected
    ensures ctx.world.log == old(ctx.world.log) + [LevelUpMessage(old(ctx.world.actors[PLAYER_ID].stats.level))]
  {
    menu := new Menu(LEVEL_UP_ITEMS, selected);
    var world := ctx.world;
    world.log := world.log + [LevelUpMessage(world.actors[PLAYER_ID].stats.level)];
  }

  /**
   * The level-up screen's event handling: the menu's, with an activated item running its boost.
   */
  method OnEvent(ctx: GameContext, menu: Menu<LevelUpChoice>, event: Event, xpCurve: int -> int)
    returns (r: StateResult)
    requires ctx.world != null && PLAYER_ID in ctx.world.actors && menu.items == LEVEL_UP_ITEMS
    modifies menu, ctx.world
    ensures menu.selected == SelectionAfter(LEVEL_UP_ITEMS, old(menu.selected), event)
    ensures match ResponseTo(LEVEL_UP_ITEMS, old(menu.selected), event)
      case NoResponse => r == Stay && ctx.world.State() == old(ctx.world.State())
      case QuitResponse => r == Quit && ctx.world.State() == old(ctx.world.State())
      case Activate(choice) => r == Reset && ctx.world.State() == Chosen(old(ctx.world.State()), choice, xpCurve)
  {
    var response := menu.OnEvent(event);
    match response
    case NoResponse =>
      r := Stay;
    case QuitResponse =>
      r := Quit;
    case Activate(choice) =>
      r := RunChoice(ctx, choice, xpCurve);
  }

  /**
   * On this menu, Enter and a left click pick the boost in the selected row (Constitution, Strength,
   * Agility from the top) and nothing when the selection is off the menu; no other key activates.
   */
  lemma SelectedRowPicksItsBoost(selected: int, event: Event)
    ensures ((event.KeyDown? && IsConfirmKey(event.key)) || event == MouseButtonUp(BUTTON_LEFT)) ==>
      ResponseTo(LEVEL_UP_ITEMS, selected, event) ==
        if selected == 0 then Activate(Constitution)
        else if selected == 1 then Activate(Strength)
        else if selected == 2 then Activate(Agility)
        else NoResponse
    ensures event.KeyDown? && !IsConfirmKey(event.key) ==> ResponseTo(LEVEL_UP_ITEMS, selected, event) == NoResponse
  {
    if event.KeyDown? && !IsConfirmKey(event.key) && event.key != SDLK_UP && event.key != SDLK_DOWN {
      assert forall j :: 0 <= j < |LEVEL_UP_ITEMS| ==> !Matches(LEVEL_UP_ITEMS[j], event.key);
    }
  }
}
