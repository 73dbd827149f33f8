/**
 * The confused behaviour: bump in a random direction drawn from the world's generator, and treat a
 * failed bump as a spent turn.
 */
module ConfusedAIAction {
  import opened Positions
  import opened Input
  import opened WorldModel
  import opened Context

  /** The direction made of two generator outputs: each taken modulo 3, less one. */
  function RandomDirection(first: nat, second: nat): (dir: Position)
    ensures IsUnit(dir)
  {
    Position(first % 3 - 1, second % 3 - 1)
  }

  /**
   * A pair of outputs gives the direction d exactly when their residues modulo 3 are d's
   * components plus one; so each of the nine directions, staying put included, can be drawn.
   */
  lemma RandomDirectionReachesEveryDirection(first: nat, second: nat, dir: Position)
    requires IsUnit(dir)
    ensures RandomDirection(first, second) == dir <==> first % 3 == dir.x + 1 && second % 3 == dir.y + 1
    ensures RandomDirection(dir.x + 1, dir.y + 1) == dir
  {
  }

  /** A Failure becomes Success; anything else is passed through. */
  function Remapped(result: ActionResult): (r: ActionResult)
    ensures result.Failure? ==> r == Success
    ensures !result.Failure? ==> r == result
  {
    if result.Failure? then Success else result
  }

  /** Remapping never fails, and is the identity on results that are not failures. */
  lemma RemappedNeverFails(result: ActionResult)
    ensures !Remapped(result).Failure?
    ensures Remapped(Remapped(result)) == Remapped(result)
  {
  }

  /** The world once the two outputs for the direction have been drawn. */
  function AfterDraws(s: WorldState): (t: WorldState)
    ensures t.rng.seed == s.rng.seed && t.rng.draws == s.rng.draws + 2
    ensures t.(rng := s.rng) == s
  {
    s.(rng := s.rng.(draws := s.rng.draws + 2))
  }

  /** The direction the next two outputs of the generator give. */
  function NextDirection(s: WorldState, outputs: (int, nat) -> nat): Position {
    RandomDirection(outputs(s.rng.seed, s.rng.draws), outputs(s.rng.seed, s.rng.draws + 1))
  }

  /**
   * What a confused turn does: the bump toward the drawn direction runs on the world after the two
   * draws, and whatever it does to the world stands; only its result is remapped.
   */
  function ConfusedTurn(s: WorldState, id: ActorID, outputs: (int, nat) -> nat,
                        bump: (WorldState, ActorID, Position) -> (WorldState, ActionResult)): (WorldState, ActionResult)
  {
    var (t, result) := bump(AfterDraws(s), id, NextDirection(s, outputs));
    (t, Remapped(result))
  }

  /**
   * A confused turn never fails, takes its direction from the next two outputs, and hands the bump
   * a world that differs from the old one only by those two draws; whatever state the bump
   * produces is the new state.
   */
  lemma ConfusedTurnNeverFails(s: WorldState, id: ActorID, outputs: (int, nat) -> nat,
                               bump: (WorldState, ActorID, Position) -> (WorldState, ActionResult))
    ensures var (t, r) := ConfusedTurn(s, id, outputs, bump);
      var (u, result) := bump(AfterDraws(s), id, NextDirection(s, outputs));
      && !r.Failure?
      && (result.Failure? ==> r == Success)
      && (!result.Failure? ==> r == result)
      && t == u
      && IsUnit(NextDirection(s, outputs))
  {
    var (u, result) := bump(AfterDraws(s), id, NextDirection(s, outputs));
    RemappedNeverFails(result);
  }

  /**
   * `ConfusedAI::perform`: takes exactly two outputs from the generator (`outputs(seed, k)` is the
   * k-th output for a seed), the first for x and the second for y, then bumps that way. The bump is
   * given as a transformer of the world that also yields its result.
   */
  method Perform(ctx: GameContext, id: ActorID, outputs: (int, nat) -> nat,
                 bump: (WorldState, ActorID, Position) -> (WorldState, ActionResult))
    returns (r: ActionResult)
    requires ctx.world != null
    modifies ctx.world
    ensures (ctx.world.State(), r) == ConfusedTurn(old(ctx.world.State()), id, outputs, bump)
  {
    var world := ctx.world;
    var first := outputs(world.rng.seed, world.rng.draws);
    world.rng := world.rng.(draws := world.rng.draws + 1);
    var second := outputs(world.rng.seed, world.rng.draws);
    world.rng := world.rng.(draws := world.rng.draws + 1);
    var randomDir := RandomDirection(first, second);
    var outcome := bump(world.State(), id, randomDir);
    world.Assign(outcome.0);
    r := outcome.1;
    if r.Failure? {
      r := Success;
    }
  }
}
