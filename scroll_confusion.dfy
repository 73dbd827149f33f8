/**
 * The scroll of confusion: using it aims the tile cursor and opens a tile picker; picking a tile
 * confuses every other actor standing there, and only a hit uses up a scroll.
 */
module ConfusionScrollItem {
  import opened Optional
  import opened Positions
  import opened WorldModel
  import opened ItemTools
  import opened Context

  /** `confuse_turns`. */
  const CONFUSE_TURNS: int := 10

  const CANT_SEE_MESSAGE := "You can't see anything there!"

  function VacantMessage(name: string): string {
    "The eyes of the " + name + " look vacant,\nas he starts to stumble around!"
  }

  /** `is_not_self_and_visible`: another actor standing on a visible tile. */
  predicate IsNotSelfAndVisible(s: WorldState, user: ActorID, other: ActorID)
    requires HasActiveMap(s)
  {
    other in s.actors && other != user && VisibleAt(ActiveMap(s), s.actors[other].pos)
  }

  /**
   * What `get_nearest_actor` may answer: an active actor that passes the filter, or nothing when
   * no active actor passes it. Which of several it picks depends on a distance not modelled here.
   */
  predicate IsNearestResult(s: WorldState, user: ActorID, nearest: Option<ActorID>)
    requires HasActiveMap(s)
  {
    match nearest
    case Some(other) => other in s.activeActors && IsNotSelfAndVisible(s, user, other)
    case None => forall a :: a in s.activeActors ==> !IsNotSelfAndVisible(s, user, a)
  }

  /** The tile the cursor is put on: the nearest visible other actor's, or else the user's own. */
  function AimAt(s: WorldState, user: ActorID, nearest: Option<ActorID>): (p: Position)
    requires HasActiveMap(s) && user in s.actors && IsNearestResult(s, user, nearest)
    ensures nearest.Some? ==> p == s.actors[nearest.value].pos && VisibleAt(ActiveMap(s), p)
    ensures nearest.None? ==> p == s.actors[user].pos
  {
    match nearest
    case Some(other) => s.actors[other].pos
    case None => s.actors[user].pos
  }

  /**
   * The cursor lands on a visible tile held by another active actor exactly when one exists;
   * otherwise it is on the user.
   */
  lemma AimFindsAVisibleOtherWhenThereIsOne(s: WorldState, user: ActorID, nearest: Option<ActorID>)
    requires HasActiveMap(s) && user in s.actors && IsNearestResult(s, user, nearest)
    ensures (exists a :: a in s.activeActors && IsNotSelfAndVisible(s, user, a)) <==>
      (exists a :: a in s.activeActors && IsNotSelfAndVisible(s, user, a) && AimAt(s, user, nearest) == s.actors[a].pos)
    ensures (forall a :: a in s.activeActors ==> !IsNotSelfAndVisible(s, user, a)) ==>
      AimAt(s, user, nearest) == s.actors[user].pos
  {
    if nearest.Some? {
      assert nearest.value in s.activeActors && IsNotSelfAndVisible(s, user, nearest.value);
    }
  }

  /**
   * `ConfusionScroll::use_item`: aims the cursor and answers Poll with a tile picker that owns the
   * current screen and will run this scroll's pick callback.
   */
  method Use(ctx: GameContext, user: ActorID, index: nat, nearest: Option<ActorID>) returns (r: ActionResult)
    requires ctx.world != null && HasActiveMap(ctx.world.State()) && user in ctx.world.actors
    requires IsNearestResult(ctx.world.State(), user, nearest)
    modifies ctx`cursor
    ensures ctx.cursor == Some(AimAt(ctx.world.State(), user, nearest))
    ensures r == Poll(PickTile(ctx.state, ConfusionPick(user, index)))
  {
    var world := ctx.world;
    if nearest.Some? {
      ctx.cursor := Some(world.actors[nearest.value].pos);
    } else {
      ctx.cursor := Some(world.actors[user].pos);
    }
    r := Poll(PickTile(ctx.state, ConfusionPick(user, index)));
  }

  /** The active actors standing at `p`, which `with_actors_at` visits; the user may be one of them. */
  function ActorsAt(s: WorldState, p: Position): (t: set<ActorID>)
    ensures forall a :: a in t <==> a in s.activeActors && a in s.actors && s.actors[a].pos == p
  {
    set a | a in s.activeActors && a in s.actors && s.actors[a].pos == p
  }

  /** The actors the scroll affects at `p`: everyone there but the user. */
  function Targets(s: WorldState, user: ActorID, p: Position): set<ActorID> {
    ActorsAt(s, p) - {user}
  }

  /**
   * What `with_actors_at` is taken to do: visit every actor of `actors` once, in some order (the
   * order is not fixed by anything shown).
   */
  predicate VisitsEachOnce(visit: seq<ActorID>, actors: set<ActorID>) {
    && (forall i :: 0 <= i < |visit| ==> visit[i] in actors)
    && (forall a :: a in actors ==> a in visit)
    && (forall i, j :: 0 <= i < j < |visit| ==> visit[i] != visit[j])
  }

  /** `confused_turns = max(confused_turns, confuse_turns)`. */
  function Confuse(a: Actor): (b: Actor)
    ensures b.stats.confusedTurns >= a.stats.confusedTurns && b.stats.confusedTurns >= CONFUSE_TURNS
    ensures b.stats.confusedTurns == a.stats.confusedTurns || b.stats.confusedTurns == CONFUSE_TURNS
    ensures b == a.(stats := a.stats.(confusedTurns := b.stats.confusedTurns))
  {
    var turns := if a.stats.confusedTurns < CONFUSE_TURNS then CONFUSE_TURNS else a.stats.confusedTurns;
    a.(stats := a.stats.(confusedTurns := turns))
  }

  /** Confusing twice is confusing once. */
  lemma ConfuseIdempotent(a: Actor)
    ensures Confuse(Confuse(a)) == Confuse(a)
  {
  }

  /** The actor table after the visit: every visited actor but the user confused. */
  function ConfusedActors(actors: map<ActorID, Actor>, visit: seq<ActorID>, user: ActorID): map<ActorID, Actor> {
    map a | a in actors :: if a in visit && a != user then Confuse(actors[a]) else actors[a]
  }

  /**
   * The messages of the visit, in visiting order: one per visited actor other than the user, each
   * naming that actor, and none for the user.
   */
  function VacantLog(actors: map<ActorID, Actor>, visit: seq<ActorID>, user: ActorID): (r: seq<string>)
    requires forall i :: 0 <= i < |visit| ==> visit[i] in actors
    ensures |r| <= |visit|
  {
    if visit == [] then []
    else
      var last := visit[|visit| - 1];
      var front := VacantLog(actors, visit[..|visit| - 1], user);
      front + (if last == user then [] else [VacantMessage(actors[last].name)])
  }

  /** Every message of the visit names a visited actor other than the user. */
  lemma {:induction false} VacantLogNamesVisited(actors: map<ActorID, Actor>, visit: seq<ActorID>, user: ActorID, k: nat)
    requires forall i :: 0 <= i < |visit| ==> visit[i] in actors
    requires k < |VacantLog(actors, visit, user)|
    ensures exists i :: (0 <= i < |visit| && visit[i] != user
      && VacantLog(actors, visit, user)[k] == VacantMessage(actors[visit[i]].name))
  {
    var n := |visit| - 1;
    var front := VacantLog(actors, visit[..n], user);
    if k < |front| {
      VacantLogNamesVisited(actors, visit[..n], user, k);
      var i :| 0 <= i < n && visit[..n][i] != user && front[k] == VacantMessage(actors[visit[..n][i]].name);
      assert visit[i] == visit[..n][i];
    } else {
      assert visit[n] != user && VacantLog(actors, visit, user)[k] == VacantMessage(actors[visit[n]].name);
    }
  }

  /** Every visited actor other than the user has its message. */
  lemma {:induction false} VacantLogCoversVisited(actors: map<ActorID, Actor>, visit: seq<ActorID>, user: ActorID, i: nat)
    requires forall j :: 0 <= j < |visit| ==> visit[j] in actors
    requires i < |visit| && visit[i] != user
    ensures VacantMessage(actors[visit[i]].name) in VacantLog(actors, visit, user)
  {
    var n := |visit| - 1;
    if i < n {
      VacantLogCoversVisited(actors, visit[..n], user, i);
      assert visit[..n][i] == visit[i];
    }
  }

  /** What the pick callback needs: the user and an active map, the visit of the tile, and a scroll to consume on a hit. */
  predicate PickNeeds(s: WorldState, user: ActorID, index: nat, target: Position, visit: seq<ActorID>) {
    && HasActiveMap(s)
    && user in s.actors
    && (VisibleAt(ActiveMap(s), target) ==> VisitsEachOnce(visit, ActorsAt(s, target)))
    && (VisibleAt(ActiveMap(s), target) && Targets(s, user, target) != {} ==>
          CanConsume(s.actors[user].stats.inventory, index))
  }

  /**
   * The pick callback's effect on the world and its result. An invisible tile: one message, Reset,
   * nothing else. No actor but the user there: Reset and no change at all. Otherwise every other
   * actor there is confused, with one message each in visiting order, one scroll is consumed, and
   * the turn ends.
   */
  predicate PickOutcome(before: WorldState, after: WorldState, r: StateResult, user: ActorID, index: nat,
                        target: Position, visit: seq<ActorID>)
    requires PickNeeds(before, user, index, target, visit)
  {
    if !VisibleAt(ActiveMap(before), target) then
      after == Logged(before, CANT_SEE_MESSAGE) && r == Reset
    else if Targets(before, user, target) == {} then
      after == before && r == Reset
    else
      var confused := before.(actors := ConfusedActors(before.actors, visit, user),
                              log := before.log + VacantLog(before.actors, visit, user));
      r == EndTurn && after == ConsumedIn(confused, user, index)
  }

  /** The pick callback built by `use_item`, run on the chosen tile. */
  method OnPick(ctx: GameContext, user: ActorID, index: nat, target: Position, visit: seq<ActorID>)
    returns (r: StateResult)
    requires ctx.world != null && PickNeeds(ctx.world.State(), user, index, target, visit)
    modifies ctx.world
    ensures PickOutcome(old(ctx.world.State()), ctx.world.State(), r, user, index, target, visit)
  {
    var world := ctx.world;
    if !VisibleAt(world.maps[world.currentMapId], target) {
      world.log := world.log + [CANT_SEE_MESSAGE];
      return Reset;
    }
    ghost var s0 := world.State();
    var hitTarget := ConfuseVisited(world, user, visit);
    if !hitTarget {
      NoOneVisited(s0.actors, visit, user);
      NoHitMeansNoTarget(s0, user, target, visit);
      return Reset;
    }
    HitMeansTarget(s0, user, target, visit);
    var kept := ConsumeDiscardItem(world, user, index);
    r := EndTurn;
  }

  lemma NoHitMeansNoTarget(s: WorldState, user: ActorID, target: Position, visit: seq<ActorID>)
    requires VisitsEachOnce(visit, ActorsAt(s, target))
    requires forall i :: 0 <= i < |visit| ==> visit[i] == user
    ensures Targets(s, user, target) == {}
  {
    forall a | a in ActorsAt(s, target) ensures a == user {
      assert a in visit;
      var i :| 0 <= i < |visit| && visit[i] == a;
    }
    assert forall a :: a in Targets(s, user, target) <==> a in {};
  }

  lemma HitMeansTarget(s: WorldState, user: ActorID, target: Position, visit: seq<ActorID>)
    requires VisitsEachOnce(visit, ActorsAt(s, target))
    requires !forall i :: 0 <= i < |visit| ==> visit[i] == user
    ensures Targets(s, user, target) != {}
  {
    var i :| 0 <= i < |visit| && visit[i] != user;
    assert visit[i] in Targets(s, user, target);
  }

  /**
   * The visit of `with_actors_at` with the scroll's visitor: the user is skipped, every other actor
   * gets its message and its confusion; the answer says whether anyone was hit.
   */
  method ConfuseVisited(world: World, user: ActorID, visit: seq<ActorID>) returns (hitTarget: bool)
    requires forall i :: 0 <= i < |visit| ==> visit[i] in world.actors
    modifies world`actors, world`log
    ensures !hitTarget <==> forall i :: 0 <= i < |visit| ==> visit[i] == user
    ensures world.actors == ConfusedActors(old(world.actors), visit, user)
    ensures world.log == old(world.log) + VacantLog(old(world.actors), visit, user)
  {
    ghost var actors0 := world.actors;
    ghost var log0 := world.log;
    hitTarget := false;
    NoOneVisited(actors0, [], user);
    for i := 0 to |visit|
      invariant !hitTarget <==> forall j :: 0 <= j < i ==> visit[j] == user
      invariant world.actors == ConfusedActors(actors0, visit[..i], user)
      invariant world.log == log0 + VacantLog(actors0, visit[..i], user)
    {
      hitTarget := VisitNext(world, actors0, log0, visit, i, user, hitTarget);
    }
    assert visit[..|visit|] == visit;
  }

  /** One step of the visit: actor `visit[i]` is confused and named unless it is the user. */
  method VisitNext(world: World, ghost actors0: map<ActorID, Actor>, ghost log0: seq<string>,
                   visit: seq<ActorID>, i: nat, user: ActorID, hit: bool) returns (hitNext: bool)
    requires i < |visit|
    requires forall j :: 0 <= j < |visit| ==> visit[j] in actors0
    requires world.actors == ConfusedActors(actors0, visit[..i], user)
    requires world.log == log0 + VacantLog(actors0, visit[..i], user)
    modifies world`actors, world`log
    ensures hitNext == (hit || visit[i] != user)
    ensures world.actors == ConfusedActors(actors0, visit[..i + 1], user)
    ensures world.log == log0 + VacantLog(actors0, visit[..i + 1], user)
  {
    var a := visit[i];
    VisitOneMore(actors0, visit, i, user);
    hitNext := hit;
    if a != user {
      ConfuseOne(world, a);
      hitNext := true;
    }
  }

  lemma VisitOneMore(actors: map<ActorID, Actor>, visit: seq<ActorID>, i: nat, user: ActorID)
    requires i < |visit|
    requires forall j :: 0 <= j < |visit| ==> visit[j] in actors
    ensures var before := ConfusedActors(actors, visit[..i], user);
      var a := visit[i];
      && a in before && before[a].name == actors[a].name
      && ConfusedActors(actors, visit[..i + 1], user) ==
           (if a == user then before else before[a := Confuse(before[a])])
      && VacantLog(actors, visit[..i + 1], user) ==
           VacantLog(actors, visit[..i], user) + (if a == user then [] else [VacantMessage(actors[a].name)])
  {
    var a := visit[i];
    assert visit[..i + 1] == visit[..i] + [a];
    assert visit[..i + 1][..i] == visit[..i];
    ConfuseIdempotent(actors[a]);
  }

  lemma NoOneVisited(actors: map<ActorID, Actor>, visit: seq<ActorID>, user: ActorID)
    requires forall j :: 0 <= j < |visit| ==> visit[j] == user && visit[j] in actors
    ensures ConfusedActors(actors, visit, user) == actors
    ensures VacantLog(actors, visit, user) == []
  {
  }

  /** The visitor's body for one target: the message, then `max(confused_turns, 10)`. */
  method ConfuseOne(world: World, a: ActorID)
    requires a in world.actors
    modifies world`actors, world`log
    ensures world.log == old(world.log) + [VacantMessage(old(world.actors)[a].name)]
    ensures world.actors == old(world.actors)[a := Confuse(old(world.actors)[a])]
  {
    var actor := world.actors[a];
    world.log := world.log + [VacantMessage(actor.name)];
    world.actors := world.actors[a := Confuse(actor)];
  }

  /**
   * Picking never lowers anyone's confusion: on a visible tile every other actor there ends with
   * max(old, 10); everyone else keeps their record, and no actor disappears.
   */
  lemma ConfusionNeverDecreases(before: WorldState, after: WorldState, r: StateResult, user: ActorID,
                                index: nat, target: Position, visit: seq<ActorID>)
    requires PickNeeds(before, user, index, target, visit)
    requires PickOutcome(before, after, r, user, index, target, visit)
    ensures after.actors.Keys == before.actors.Keys
    ensures forall a :: a in before.actors ==>
      after.actors[a].stats.confusedTurns >= before.actors[a].stats.confusedTurns
    ensures VisibleAt(ActiveMap(before), target) ==> forall a :: a in Targets(before, user, target) ==>
      after.actors[a].stats.confusedTurns ==
        (if before.actors[a].stats.confusedTurns < 10 then 10 else before.actors[a].stats.confusedTurns)
    ensures forall a :: (a in before.actors && a != user
      && (a !in Targets(before, user, target) || !VisibleAt(ActiveMap(before), target))) ==>
      after.actors[a] == before.actors[a]
  {
    if VisibleAt(ActiveMap(before), target) && Targets(before, user, target) != {} {
      var confused := ConfusedActors(before.actors, visit, user);
      assert confused[user] == before.actors[user];
      forall a | a in before.actors && a != user && a !in Targets(before, user, target)
        ensures after.actors[a] == before.actors[a]
      {
        assert a !in visit;
      }
    }
  }

  /**
   * A scroll is used up exactly when the tile is visible and holds another actor: then the result is
   * EndTurn and the user's stacks hold one unit less; on every other path the actors are untouched
   * and the result is Reset.
   */
  lemma ScrollConsumedOnlyOnHit(before: WorldState, after: WorldState, r: StateResult, user: ActorID,
                                index: nat, target: Position, visit: seq<ActorID>)
    requires PickNeeds(before, user, index, target, visit)
    requires PickOutcome(before, after, r, user, index, target, visit)
    ensures r == EndTurn <==> VisibleAt(ActiveMap(before), target) && Targets(before, user, target) != {}
    ensures r != EndTurn ==> r == Reset && after.actors == before.actors
    ensures user in after.actors
    ensures TotalCount(after.actors[user].stats.inventory) ==
      TotalCount(before.actors[user].stats.inventory) - (if r == EndTurn then 1 else 0)
  {
    if VisibleAt(ActiveMap(before), target) && Targets(before, user, target) != {} {
      assert ConfusedActors(before.actors, visit, user)[user] == before.actors[user];
      ConsumedRemovesOneUnit(before.actors[user].stats.inventory, index);
    }
  }

  /**
   * The log: an invisible tile adds "You can't see anything there!"; a visible one keeps the old
   * log as a prefix and adds only vacant-eyes messages, each naming an actor the scroll hit, and
   * one for every actor it hit.
   */
  lemma OneMessagePerTarget(before: WorldState, after: WorldState, r: StateResult, user: ActorID,
                            index: nat, target: Position, visit: seq<ActorID>)
    requires PickNeeds(before, user, index, target, visit)
    requires PickOutcome(before, after, r, user, index, target, visit)
    ensures !VisibleAt(ActiveMap(before), target) ==> after.log == before.log + ["You can't see anything there!"]
    ensures VisibleAt(ActiveMap(before), target) ==>
      && after.log[..|before.log|] == before.log
      && (forall k :: |before.log| <= k < |after.log| ==>
           exists a :: a in Targets(before, user, target) && after.log[k] == VacantMessage(before.actors[a].name))
      && (forall a :: a in Targets(before, user, target) ==>
           VacantMessage(before.actors[a].name) in after.log[|before.log|..])
  {
    if VisibleAt(ActiveMap(before), target) {
      var targets := Targets(before, user, target);
      if targets == {} {
        assert after.log[|before.log|..] == [];
      } else {
        var msgs := VacantLog(before.actors, visit, user);
        assert after.log == before.log + msgs;
        assert after.log[|before.log|..] == msgs;
        forall k | |before.log| <= k < |after.log|
          ensures exists a :: a in targets && after.log[k] == VacantMessage(before.actors[a].name)
        {
          VacantLogNamesVisited(before.actors, visit, user, k - |before.log|);
          var i :| 0 <= i < |visit| && visit[i] != user && msgs[k - |before.log|] == VacantMessage(before.actors[visit[i]].name);
          assert visit[i] in targets;
        }
        forall a | a in targets
          ensures VacantMessage(before.actors[a].name) in after.log[|before.log|..]
        {
          assert a in visit;
          var i :| 0 <= i < |visit| && visit[i] == a;
          VacantLogCoversVisited(before.actors, visit, user, i);
        }
      }
    }
  }
}
