/**
 * Combat resolution: damage, death, removal and healing.
 * Each operation is a method on the world whose new state is given by a function of the old one;
 * the lemmas below state what those functions promise.
 */
module Combat {
  import opened Positions
  import opened WorldModel

  /** The attack minus the target's defense, never below zero. */
  function CalculateDamage(target: Actor, attack: int): (damage: int)
    ensures damage >= 0 && damage >= attack - target.stats.defense
    ensures damage == 0 || damage == attack - target.stats.defense
  {
    var d := attack - target.stats.defense;
    if d < 0 then 0 else d
  }

  function AttackMessage(self: Actor, target: Actor, damage: int): string {
    if damage > 0 then
      self.name + " attacks " + target.name + " for " + IntToString(damage) + " hit points."
    else
      self.name + " attacks " + target.name + " but it has no effect!"
  }

  function DiesMessage(target: Actor): string {
    "The " + target.name + " dies! You gain " + IntToString(target.stats.xp) + " xp."
  }

  function HealMessage(target: Actor, amount: int): string {
    target.name + " heals " + IntToString(amount) + " HP."
  }

  const DEATH_MESSAGE := "You have died!"

  /** What healing needs: a live target and a well-formed active map. */
  predicate CanHeal(s: WorldState, id: ActorID) {
    HasActiveMap(s) && id in s.actors
  }

  /** What damage and death need besides: the player, who collects a slain monster's xp. */
  predicate CanAffect(s: WorldState, id: ActorID) {
    CanHeal(s, id) && PLAYER_ID in s.actors
  }

  // ---------------------------------------------------------------- destroy

  function Destroyed(s: WorldState, id: ActorID): WorldState {
    s.(activeActors := s.activeActors - {id}, actors := s.actors - {id})
  }

  method Destroy(world: World, id: ActorID)
    modifies world`activeActors, world`actors
    ensures world.State() == Destroyed(old(world.State()), id)
  {
    world.activeActors := world.activeActors - {id};
    world.actors := world.actors - {id};
  }

  /** Destroying erases the id from both collections and touches nothing else. */
  lemma DestroyErasesOnlyTheId(s: WorldState, id: ActorID)
    ensures id !in Destroyed(s, id).actors && id !in Destroyed(s, id).activeActors
    ensures Destroyed(s, id).actors.Keys == s.actors.Keys - {id}
    ensures forall other :: other in s.actors && other != id ==> Destroyed(s, id).actors[other] == s.actors[other]
    ensures Destroyed(s, id).activeActors == s.activeActors - {id}
    ensures Destroyed(s, id).(actors := s.actors, activeActors := s.activeActors) == s
  {
  }

  // ---------------------------------------------------------------- kill

  function Killed(s: WorldState, id: ActorID): WorldState
    requires CanAffect(s, id)
  {
    if id == PLAYER_ID then
      Logged(s, DEATH_MESSAGE)
    else
      var target := s.actors[id];
      var player := s.actors[PLAYER_ID];
      var s1 := WithStats(s, PLAYER_ID, player.stats.(xp := player.stats.xp + target.stats.xp));
      var s2 := if VisibleAt(ActiveMap(s1), target.pos) then Logged(s1, DiesMessage(target)) else s1;
      Destroyed(s2, id)
  }

  method Kill(world: World, id: ActorID)
    requires CanAffect(world.State(), id)
    modifies world
    ensures world.State() == Killed(old(world.State()), id)
  {
    if id == PLAYER_ID {
      world.log := world.log + [DEATH_MESSAGE];
    } else {
      var target := world.actors[id];
      var player := world.actors[PLAYER_ID];
      world.actors := world.actors[PLAYER_ID := player.(stats := player.stats.(xp := player.stats.xp + target.stats.xp))];
      if VisibleAt(world.maps[world.currentMapId], target.pos) {
        world.log := world.log + [DiesMessage(target)];
      }
      Destroy(world, id);
    }
  }

  /** Killing the player only appends "You have died!": the player stays, and no xp changes. */
  lemma KillPlayerOnlyLogs(s: WorldState)
    requires CanAffect(s, PLAYER_ID)
    ensures Killed(s, PLAYER_ID).actors == s.actors
    ensures Killed(s, PLAYER_ID).activeActors == s.activeActors
    ensures Killed(s, PLAYER_ID).log == s.log + ["You have died!"]
    ensures Killed(s, PLAYER_ID).(log := s.log) == s
  {
  }

  /**
   * Killing anyone else gives the player exactly the victim's xp, removes the victim from both
   * `actors` and `active_actors`, leaves every other actor alone, and logs at most one message:
   * the death message, when the victim's tile is visible.
   */
  lemma KillNonPlayerRewards(s: WorldState, id: ActorID)
    requires CanAffect(s, id) && id != PLAYER_ID
    ensures var t := Killed(s, id);
      && t.actors.Keys == s.actors.Keys - {id}
      && t.activeActors == s.activeActors - {id}
      && t.actors[PLAYER_ID].stats.xp == s.actors[PLAYER_ID].stats.xp + s.actors[id].stats.xp
      && t.actors[PLAYER_ID] == s.actors[PLAYER_ID].(stats := t.actors[PLAYER_ID].stats)
      && t.actors[PLAYER_ID].stats == s.actors[PLAYER_ID].stats.(xp := t.actors[PLAYER_ID].stats.xp)
      && (forall other :: other in t.actors && other != PLAYER_ID ==> t.actors[other] == s.actors[other])
      && t.log == s.log + (if VisibleAt(ActiveMap(s), s.actors[id].pos) then [DiesMessage(s.actors[id])] else [])
      && t.maps == s.maps && t.schedule == s.schedule && t.rng == s.rng
  {
  }

  // ---------------------------------------------------------------- apply_damage

  function Damaged(s: WorldState, id: ActorID, damage: int): WorldState
    requires CanAffect(s, id)
  {
    var target := s.actors[id];
    var s1 := WithStats(s, id, target.stats.(hp := target.stats.hp - damage));
    if s1.actors[id].stats.hp <= 0 then Killed(s1, id) else s1
  }

  method ApplyDamage(world: World, id: ActorID, damage: int)
    requires CanAffect(world.State(), id)
    modifies world
    ensures world.State() == Damaged(old(world.State()), id, damage)
  {
    var target := world.actors[id];
    world.actors := world.actors[id := target.(stats := target.stats.(hp := target.stats.hp - damage))];
    if world.actors[id].stats.hp <= 0 {
      Kill(world, id);
    }
  }

  /**
   * Damage lowers hp by exactly `damage`, and kill runs if and only if the result is at most 0:
   * a surviving actor keeps every other field; a monster brought to 0 is gone; the player brought
   * to 0 stays with the lowered hp and "You have died!" is logged.
   */
  lemma DamageKillsIffHpGone(s: WorldState, id: ActorID, damage: int)
    requires CanAffect(s, id)
    ensures var t := Damaged(s, id, damage);
      var hp := s.actors[id].stats.hp - damage;
      && (hp > 0 ==> t == WithStats(s, id, s.actors[id].stats.(hp := hp)))
      && (hp <= 0 && id != PLAYER_ID ==> id !in t.actors && id !in t.activeActors)
      && (id == PLAYER_ID ==> id in t.actors && t.actors[id].stats.hp == hp)
      && (id == PLAYER_ID ==> (t.log == s.log + ["You have died!"] <==> hp <= 0))
      && (id == PLAYER_ID && hp > 0 ==> t.log == s.log)
  {
    var hp := s.actors[id].stats.hp - damage;
    if id == PLAYER_ID && hp > 0 {
      assert Damaged(s, id, damage).log == s.log;
      assert |s.log + ["You have died!"]| != |s.log|;
    }
  }

  // ---------------------------------------------------------------- attack

  function Attacked(s: WorldState, self: ActorID, target: ActorID): WorldState
    requires CanAffect(s, self) && CanAffect(s, target)
  {
    var attacker := s.actors[self];
    var victim := s.actors[target];
    var damage := CalculateDamage(victim, attacker.stats.attack);
    var m := ActiveMap(s);
    var s1 :=
      if VisibleAt(m, attacker.pos) || VisibleAt(m, victim.pos) then Logged(s, AttackMessage(attacker, victim, damage))
      else s;
    Damaged(s1, target, damage)
  }

  method Attack(world: World, self: ActorID, target: ActorID)
    requires CanAffect(world.State(), self) && CanAffect(world.State(), target)
    modifies world
    ensures world.State() == Attacked(old(world.State()), self, target)
  {
    var attacker := world.actors[self];
    var victim := world.actors[target];
    var damage := CalculateDamage(victim, attacker.stats.attack);
    var m := world.maps[world.currentMapId];
    if VisibleAt(m, attacker.pos) || VisibleAt(m, victim.pos) {
      world.log := world.log + [AttackMessage(attacker, victim, damage)];
    }
    ApplyDamage(world, target, damage);
  }

  /**
   * An attack applies exactly `CalculateDamage(target, attacker.attack)` to the target: a survivor
   * only loses that much hp, the player keeps the lowered hp even at 0, a monster brought to 0 is
   * gone and its xp goes to the player; no other actor, map, schedule or generator state changes.
   */
  lemma AttackAppliesCalculatedDamage(s: WorldState, self: ActorID, target: ActorID)
    requires CanAffect(s, self) && CanAffect(s, target)
    ensures var victim := s.actors[target];
      var hp := victim.stats.hp - CalculateDamage(victim, s.actors[self].stats.attack);
      var t := Attacked(s, self, target);
      && (hp > 0 ==> t.actors == s.actors[target := victim.(stats := victim.stats.(hp := hp))])
      && (target == PLAYER_ID ==> target in t.actors && t.actors[target].stats == victim.stats.(hp := hp))
      && (hp <= 0 && target != PLAYER_ID ==>
            && target !in t.actors && target !in t.activeActors
            && t.actors[PLAYER_ID].stats.xp == s.actors[PLAYER_ID].stats.xp + victim.stats.xp)
      && (forall other :: other in s.actors && other != target && other != PLAYER_ID ==>
            other in t.actors && t.actors[other] == s.actors[other])
      && t.maps == s.maps && t.currentMapId == s.currentMapId && t.schedule == s.schedule && t.rng == s.rng
  {
    var logged := AttackLogged(s, self, target);
    DamagedKeepsTheRest(logged, target, CalculateDamage(s.actors[target], s.actors[self].stats.attack));
  }

  /**
   * An attack first logs its message, when either tile is visible and only then, and anything it
   * logs afterwards (a death) comes after it; a survivor's attack logs nothing more.
   */
  lemma AttackLogsFirst(s: WorldState, self: ActorID, target: ActorID)
    requires CanAffect(s, self) && CanAffect(s, target)
    ensures var attacker := s.actors[self];
      var victim := s.actors[target];
      var damage := CalculateDamage(victim, attacker.stats.attack);
      var seen := VisibleAt(ActiveMap(s), attacker.pos) || VisibleAt(ActiveMap(s), victim.pos);
      var said := if seen then [AttackMessage(attacker, victim, damage)] else [];
      var t := Attacked(s, self, target);
      && |s.log| + |said| <= |t.log| && t.log[..|s.log| + |said|] == s.log + said
      && (victim.stats.hp - damage > 0 ==> t.log == s.log + said)
  {
    var logged := AttackLogged(s, self, target);
    DamagedKeepsTheRest(logged, target, CalculateDamage(s.actors[target], s.actors[self].stats.attack));
  }

  /** The world an attack hands to `apply_damage`: the old one with the attack message, if any, logged. */
  lemma AttackLogged(s: WorldState, self: ActorID, target: ActorID) returns (logged: WorldState)
    requires CanAffect(s, self) && CanAffect(s, target)
    ensures var attacker := s.actors[self];
      var victim := s.actors[target];
      var damage := CalculateDamage(victim, attacker.stats.attack);
      var seen := VisibleAt(ActiveMap(s), attacker.pos) || VisibleAt(ActiveMap(s), victim.pos);
      && logged == s.(log := s.log + if seen then [AttackMessage(attacker, victim, damage)] else [])
      && CanAffect(logged, target)
      && Attacked(s, self, target) == Damaged(logged, target, damage)
  {
    var attacker := s.actors[self];
    var victim := s.actors[target];
    var damage := CalculateDamage(victim, attacker.stats.attack);
    var seen := VisibleAt(ActiveMap(s), attacker.pos) || VisibleAt(ActiveMap(s), victim.pos);
    logged := s.(log := s.log + if seen then [AttackMessage(attacker, victim, damage)] else []);
  }

  /**
   * What `apply_damage` leaves of the world, in one place: the log only grows; a survivor only
   * loses hp; the player keeps their lowered hp; a monster brought to 0 is gone and its xp goes to
   * the player; every other actor, the maps, the schedule and the generator are untouched.
   */
  lemma DamagedKeepsTheRest(s: WorldState, id: ActorID, damage: int)
    requires CanAffect(s, id)
    ensures var victim := s.actors[id];
      var hp := victim.stats.hp - damage;
      var t := Damaged(s, id, damage);
      && |s.log| <= |t.log| && t.log[..|s.log|] == s.log
      && (hp > 0 ==> t.log == s.log && t.actors == s.actors[id := victim.(stats := victim.stats.(hp := hp))])
      && (id == PLAYER_ID ==> id in t.actors && t.actors[id].stats == victim.stats.(hp := hp))
      && (hp <= 0 && id != PLAYER_ID ==>
            && id !in t.actors && id !in t.activeActors
            && t.actors[PLAYER_ID].stats.xp == s.actors[PLAYER_ID].stats.xp + victim.stats.xp)
      && (forall other :: other in s.actors && other != id && other != PLAYER_ID ==>
            other in t.actors && t.actors[other] == s.actors[other])
      && t.maps == s.maps && t.currentMapId == s.currentMapId && t.schedule == s.schedule && t.rng == s.rng
  {
    var victim := s.actors[id];
    var hp := victim.stats.hp - damage;
    var s1 := WithStats(s, id, victim.stats.(hp := hp));
    if hp <= 0 {
      assert Damaged(s, id, damage) == Killed(s1, id);
      if id != PLAYER_ID {
        KillNonPlayerRewards(s1, id);
      }
    }
  }

  // ---------------------------------------------------------------- heal

  /** The amount actually healed: the request, cut down to what reaches `max_hp`. */
  function HealAmount(amount: int, hp: int, maxHp: int): (healed: int)
    ensures healed <= amount && hp + healed <= maxHp
    ensures healed == amount || hp + healed == maxHp
  {
    if amount < maxHp - hp then amount else maxHp - hp
  }

  function Healed(s: WorldState, id: ActorID, amount: int): WorldState
    requires CanHeal(s, id)
  {
    var target := s.actors[id];
    var healed := HealAmount(amount, target.stats.hp, target.stats.maxHp);
    var s1 := WithStats(s, id, target.stats.(hp := target.stats.hp + healed));
    if VisibleAt(ActiveMap(s1), target.pos) then Logged(s1, HealMessage(target, healed)) else s1
  }

  method Heal(world: World, id: ActorID, amount: int) returns (healed: int)
    requires CanHeal(world.State(), id)
    modifies world
    ensures var before := old(world.State()).actors[id].stats;
      healed == HealAmount(amount, before.hp, before.maxHp)
    ensures world.State() == Healed(old(world.State()), id, amount)
  {
    var target := world.actors[id];
    healed := HealAmount(amount, target.stats.hp, target.stats.maxHp);
    world.actors := world.actors[id := target.(stats := target.stats.(hp := target.stats.hp + healed))];
    if VisibleAt(world.maps[world.currentMapId], target.pos) {
      world.log := world.log + [HealMessage(target, healed)];
    }
  }

  /**
   * Healing returns `min(amount, max_hp - hp)`, raises hp by exactly that, never leaves hp above
   * `max_hp`, and changes no other stat and no other actor.
   */
  lemma HealClampsToMaxHp(s: WorldState, id: ActorID, amount: int)
    requires CanHeal(s, id)
    ensures var before := s.actors[id].stats;
      var healed := HealAmount(amount, before.hp, before.maxHp);
      var after := Healed(s, id, amount).actors[id].stats;
      && healed == (if amount <= before.maxHp - before.hp then amount else before.maxHp - before.hp)
      && after.hp == before.hp + healed
      && after.hp <= before.maxHp
      && after.hp == (if before.hp + amount <= before.maxHp then before.hp + amount else before.maxHp)
      && after == before.(hp := after.hp)
      && Healed(s, id, amount).actors == s.actors[id := s.actors[id].(stats := after)]
  {
  }
}
