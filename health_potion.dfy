/** The health potion: drinking it logs, heals by up to 4 and consumes one potion. */
module HealthPotionItem {
  import opened WorldModel
  import opened ItemTools
  import opened Combat
  import opened Context

  const HEAL_AMOUNT: int := 4

  const DRINK_MESSAGE := "You drink the health potion."

  /** The drinker exists in a world with an active map, and entry `index` is a potion with a charge. */
  predicate CanDrink(s: WorldState, id: ActorID, index: int) {
    && CanHeal(s, id)
    && CanConsume(s.actors[id].stats.inventory, index)
    && s.actors[id].stats.inventory[index].kind == HealthPotion
  }

  /** The world after the drink: the message, then the heal, then one potion consumed. */
  function Drunk(s: WorldState, id: ActorID, index: nat): WorldState
    requires CanDrink(s, id, index)
  {
    var s1 := Logged(s, DRINK_MESSAGE);
    var s2 := Healed(s1, id, HEAL_AMOUNT);
    ConsumedIn(s2, id, index)
  }

  /** `HealthPotion::use_item`: always Success, even when nothing was healed. */
  method Use(ctx: GameContext, id: ActorID, index: nat) returns (r: ActionResult)
    requires ctx.world != null && CanDrink(ctx.world.State(), id, index)
    modifies ctx.world
    ensures r == Success
    ensures ctx.world.State() == Drunk(old(ctx.world.State()), id, index)
  {
    var world := ctx.world;
    world.log := world.log + [DRINK_MESSAGE];
    var healed := Heal(world, id, HEAL_AMOUNT);
    var kept := ConsumeDiscardItem(world, id, index);
    r := Success;
  }

  /**
   * Drinking first logs "You drink the health potion." (followed by at most the heal message),
   * raises hp by min(4, max_hp - hp) so that hp never exceeds max_hp, removes exactly one potion
   * from the drinker's stacks, and touches no other actor and no other stat.
   */
  lemma DrinkingHealsAndConsumesOne(s: WorldState, id: ActorID, index: nat)
    requires CanDrink(s, id, index)
    ensures var t := Drunk(s, id, index);
      var before := s.actors[id].stats;
      var after := t.actors[id].stats;
      && t.log[..|s.log| + 1] == s.log + ["You drink the health potion."]
      && |s.log| + 1 <= |t.log| <= |s.log| + 2
      && after.hp == before.hp + HealAmount(4, before.hp, before.maxHp)
      && after.hp <= before.maxHp
      && TotalCount(after.inventory) == TotalCount(before.inventory) - 1
      && after == before.(hp := after.hp, inventory := after.inventory)
      && t.actors.Keys == s.actors.Keys
      && (forall other :: other in s.actors && other != id ==> t.actors[other] == s.actors[other])
      && t.(log := s.log, actors := s.actors) == s
  {
    var s1 := Logged(s, DRINK_MESSAGE);
    var s2 := Healed(s1, id, HEAL_AMOUNT);
    HealClampsToMaxHp(s1, id, HEAL_AMOUNT);
    ConsumedRemovesOneUnit(s2.actors[id].stats.inventory, index);
    assert s2.log[..|s.log| + 1] == s1.log;
  }
}
