/**
 * The initial world: one walled dungeon map, fully explored and visible, with the down stairs; the
 * player alone on it, first in the schedule; and a welcome message.
 */
module WorldInit {
  import opened Positions
  import opened MapIds
  import opened WorldModel
  import Combat

  const DUNGEON_ID: MapID := MapID("dungeon", 1)
  const STAIRS_POS: Position := Position(40, 23)
  const PLAYER_START: Position := Position(40, 25)
  const WELCOME_MESSAGE := "Welcome to the dungeon!"

  /** The player as `new_world` creates it (inventory and confusion take their defaults). */
  const INITIAL_PLAYER: Actor := Actor("Player", PLAYER_ID, Stats(30, 30, 5, 2, 1, 0, 0, []), PLAYER_START)

  /** A cell of the outermost ring of a grid, which `with_border` visits. */
  predicate OnBorder<T>(g: Grid<T>, p: Position) {
    p.x == 0 || p.y == 0 || p.x == g.width - 1 || p.y == g.height - 1
  }

  /** The grid with cell `p` set to `v` (`at(p) = v`). */
  function Assigned<T>(g: Grid<T>, p: Position, v: T): (r: Grid<T>)
    requires g.Valid() && g.InBounds(p)
    ensures r.Valid() && r.width == g.width && r.height == g.height
    ensures r.At(p) == v
    ensures forall q :: r.InBounds(q) && q != p ==> r.At(q) == g.At(q)
  {
    g.(cells := g.cells[p.y := g.cells[p.y][p.x := v]])
  }

  /** `with_indexes(g, at = v)`: every cell, row by row, set to `v`. */
  method FillAll<T>(g: Grid<T>, v: T) returns (r: Grid<T>)
    requires g.Valid()
    ensures r.Valid() && r.width == g.width && r.height == g.height
    ensures forall p :: r.InBounds(p) ==> r.At(p) == v
  {
    r := g;
    for y := 0 to g.height
      invariant r.Valid() && r.width == g.width && r.height == g.height
      invariant forall p :: r.InBounds(p) && p.y < y ==> r.At(p) == v
    {
      for x := 0 to g.width
        invariant r.Valid() && r.width == g.width && r.height == g.height
        invariant forall p :: r.InBounds(p) && (p.y < y || (p.y == y && p.x < x)) ==> r.At(p) == v
      {
        r := Assigned(r, Position(x, y), v);
      }
    }
  }

  /** `with_border(g, at = v)`: the border cells set to `v`, the others left as they were. */
  method FillBorder<T>(g: Grid<T>, v: T) returns (r: Grid<T>)
    requires g.Valid()
    ensures r.Valid() && r.width == g.width && r.height == g.height
    ensures forall p :: r.InBounds(p) ==> r.At(p) == if OnBorder(g, p) then v else g.At(p)
  {
    r := g;
    for y := 0 to g.height
      invariant r.Valid() && r.width == g.width && r.height == g.height
      invariant forall p :: r.InBounds(p) && p.y < y ==> r.At(p) == if OnBorder(g, p) then v else g.At(p)
      invariant forall p :: r.InBounds(p) && p.y >= y ==> r.At(p) == g.At(p)
    {
      for x := 0 to g.width
        invariant r.Valid() && r.width == g.width && r.height == g.height
        invariant forall p :: r.InBounds(p) && (p.y < y || (p.y == y && p.x < x)) ==>
          r.At(p) == if OnBorder(g, p) then v else g.At(p)
        invariant forall p :: r.InBounds(p) && (p.y > y || (p.y == y && p.x >= x)) ==> r.At(p) == g.At(p)
      {
        if OnBorder(g, Position(x, y)) {
          r := Assigned(r, Position(x, y), v);
        }
      }
    }
  }

  /** What `new_world` builds on a `width` by `height` map, with the generator seeded by `seed`. */
  ghost predicate IsInitialWorld(s: WorldState, width: nat, height: nat, seed: int) {
    && s.maps.Keys == {DUNGEON_ID}
    && s.currentMapId == DUNGEON_ID
    && (var m := s.maps[DUNGEON_ID];
       && MapWf(m)
       && m.id == DUNGEON_ID
       && m.tiles.width == width && m.tiles.height == height
       && (forall p :: m.tiles.InBounds(p) ==> m.tiles.At(p) == if OnBorder(m.tiles, p) then Wall else Floor)
       && (forall p :: m.explored.InBounds(p) ==> m.explored.At(p))
       && (forall p :: m.visible.InBounds(p) ==> m.visible.At(p))
       && m.fixtures == map[STAIRS_POS := Fixture("Stairs Down", '>')]
       && m.items == map[])
    && s.actors == map[PLAYER_ID := INITIAL_PLAYER]
    && s.activeActors == {PLAYER_ID}
    && s.schedule == [PLAYER_ID]
    && s.rng == Rng(seed, 0)
    && s.log == [WELCOME_MESSAGE]
  }

  /** `new_world`; the map size and the seed drawn from the system are parameters. */
  method NewWorld(width: nat, height: nat, seed: int) returns (world: World)
    ensures fresh(world)
    ensures IsInitialWorld(world.State(), width, height, seed)
  {
    world := new World();
    world.rng := Rng(seed, 0);
    var tiles := FillAll(NewGrid(width, height, Wall), Floor);
    tiles := FillBorder(tiles, Wall);
    var explored := FillAll(NewGrid(width, height, false), true);
    var visible := FillAll(NewGrid(width, height, false), true);
    var m := GameMap(DUNGEON_ID, tiles, explored, visible, map[], map[]);
    m := m.(fixtures := m.fixtures[STAIRS_POS := Fixture("Stairs Down", '>')]);
    world.maps := world.maps[DUNGEON_ID := m];
    world.currentMapId := DUNGEON_ID;
    world.actors := world.actors[PLAYER_ID := INITIAL_PLAYER];
    world.activeActors := world.activeActors + {PLAYER_ID};
    world.schedule := world.schedule + [PLAYER_ID];
    world.log := world.log + [WELCOME_MESSAGE];
  }

  /**
   * On a map wider than 41 and taller than 26 the new world is ready for play: the player is at
   * full health on a visible floor tile, active and first in the schedule, and combat and healing
   * may act on them; the stairs are on a floor tile too, inside the walls.
   */
  lemma InitialWorldIsPlayable(s: WorldState, width: nat, height: nat, seed: int)
    requires IsInitialWorld(s, width, height, seed)
    requires width > 41 && height > 26
    ensures Combat.CanAffect(s, PLAYER_ID)
    ensures PLAYER_ID in s.activeActors && s.schedule[0] == PLAYER_ID
    ensures var player := s.actors[PLAYER_ID];
      var m := ActiveMap(s);
      && player.stats.hp == player.stats.maxHp == 30
      && m.tiles.InBounds(player.pos) && m.tiles.At(player.pos) == Floor
      && VisibleAt(m, player.pos)
      && m.tiles.InBounds(STAIRS_POS) && m.tiles.At(STAIRS_POS) == Floor
  {
    var m := ActiveMap(s);
    assert m.tiles.InBounds(PLAYER_START) && !OnBorder(m.tiles, PLAYER_START);
    assert m.tiles.InBounds(STAIRS_POS) && !OnBorder(m.tiles, STAIRS_POS);
    assert m.visible.InBounds(PLAYER_START);
  }
}
