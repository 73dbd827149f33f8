/** The inventory picker: a letter key picks the inventory entry of that rank; Escape cancels. */
module PickInventoryScreen {
  import opened Optional
  import opened Input
  import opened Context
  import opened WorldModel

  /** The inventory index a key stands for: `a` is 0 and `z` is 25. */
  function KeyIndex(key: int): (index: Option<nat>)
    ensures index.Some? <==> SDLK_A <= key <= SDLK_Z
    ensures index.Some? ==> index.value < 26 && SDLK_A + index.value == key
  {
    if SDLK_A <= key <= SDLK_Z then Some(key - SDLK_A) else None
  }

  /** Every index of the 26 has its letter, and that letter gives it back. */
  lemma LetterForEveryIndex(index: nat)
    requires index < 26
    ensures SDLK_A <= SDLK_A + index <= SDLK_Z
    ensures KeyIndex(SDLK_A + index) == Some(index)
  {
  }

  /**
   * What `PickInventory::on_event` does for one event: the world it leaves and the result it gives,
   * for a picker opened from `parent` whose callback (owned by the screen that opened it) is
   * `onPick`. The callback receives the world and the picked index and may change the world; every
   * other event leaves the world as it is.
   */
  function PickOutcome(s: WorldState, parent: Screen, event: Event,
                       onPick: (WorldState, int) -> (WorldState, StateResult)): (r: (WorldState, StateResult))
    ensures event.KeyDown? && event.key == SDLK_ESCAPE ==> r == (s, Change(parent))
    ensures event.KeyDown? && SDLK_A <= event.key <= SDLK_Z ==>
      0 <= event.key - SDLK_A < 26 && r == onPick(s, event.key - SDLK_A)
    ensures event == QuitRequested ==> r == (s, Quit)
    ensures ((event.KeyDown? && event.key != SDLK_ESCAPE && !(SDLK_A <= event.key <= SDLK_Z))
      || (!event.KeyDown? && event != QuitRequested)) ==> r == (s, Stay)
  {
    match event
    case KeyDown(key, _) =>
      if key == SDLK_ESCAPE then (s, Change(parent))
      else (match KeyIndex(key) case Some(index) => onPick(s, index) case None => (s, Stay))
    case QuitRequested => (s, Quit)
    case _ => (s, Stay)
  }

  /** `PickInventory::on_event`: it needs a live world, which only the callback may change. */
  method OnEvent(ctx: GameContext, parent: Screen, event: Event,
                 onPick: (WorldState, int) -> (WorldState, StateResult)) returns (r: StateResult)
    requires ctx.world != null
    modifies ctx.world
    ensures (ctx.world.State(), r) == PickOutcome(old(ctx.world.State()), parent, event, onPick)
    ensures !(event.KeyDown? && SDLK_A <= event.key <= SDLK_Z) ==> ctx.world.State() == old(ctx.world.State())
  {
    match event
    case KeyDown(key, _) =>
      if key == SDLK_ESCAPE {
        r := Change(parent);
      } else {
        var index := KeyIndex(key);
        if index.Some? {
          var outcome := onPick(ctx.world.State(), index.value);
          ctx.world.Assign(outcome.0);
          r := outcome.1;
        } else {
          r := Stay;
        }
      }
    case QuitRequested => r := Quit;
    case _ => r := Stay;
  }
}
