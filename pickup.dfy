/**
 * Picking up the first item lying at the actor's tile: it joins the first inventory stack with the
 * same name, or becomes a new last stack, and leaves the map.
 */
module Pickup {
  import opened Optional
  import opened Positions
  import opened WorldModel
  import opened ItemTools
  import opened Context

  const NOTHING_TO_PICKUP := "Nothing to pickup!"

  function TakeMessage(item: Item): string {
    "You take the " + Name(item) + "."
  }

  /** The actor exists and the world has an active map. */
  predicate CanAct(s: WorldState, id: ActorID) {
    HasActiveMap(s) && id in s.actors
  }

  /** The index of the first stack named `name` (`std::find_if` by `get_name()`). */
  function FindStack(inventory: seq<Item>, name: string): (r: Option<nat>)
    ensures r.Some? ==> r.value < |inventory| && Name(inventory[r.value]) == name
    ensures r.Some? ==> forall j :: 0 <= j < r.value ==> Name(inventory[j]) != name
    ensures r.None? ==> forall j :: 0 <= j < |inventory| ==> Name(inventory[j]) != name
  {
    if inventory == [] then None
    else if Name(inventory[0]) == name then Some(0)
    else match FindStack(inventory[1..], name)
      case Some(k) => Some(k + 1)
      case None => None
  }

  /** The inventory after `item` is added: merged into the first stack of that name, or appended. */
  function Stacked(inventory: seq<Item>, item: Item): seq<Item> {
    match FindStack(inventory, Name(item))
    case Some(i) => inventory[i := inventory[i].(count := inventory[i].count + item.count)]
    case None => inventory + [item]
  }

  /** The item multimap after the first entry at `p` is erased; a tile left empty has no entry. */
  function TakenFrom(items: map<Position, seq<Item>>, p: Position): map<Position, seq<Item>>
    requires ItemsAt(items, p) != []
  {
    if |items[p]| == 1 then items - {p} else items[p := items[p][1..]]
  }

  /** `Pickup::perform`: the new world and the result. */
  function PickedUp(s: WorldState, id: ActorID): (WorldState, ActionResult)
    requires CanAct(s, id)
  {
    var m := ActiveMap(s);
    var actor := s.actors[id];
    var here := ItemsAt(m.items, actor.pos);
    if here == [] then (s, Failure(NOTHING_TO_PICKUP))
    else
      var item := here[0];
      var s1 := Logged(s, TakeMessage(item));
      var s2 := WithStats(s1, id, actor.stats.(inventory := Stacked(actor.stats.inventory, item)));
      (s2.(maps := s2.maps[s.currentMapId := m.(items := TakenFrom(m.items, actor.pos))]), Success)
  }

  method Perform(ctx: GameContext, id: ActorID) returns (r: ActionResult)
    requires ctx.world != null && CanAct(ctx.world.State(), id)
    modifies ctx.world
    ensures (ctx.world.State(), r) == PickedUp(old(ctx.world.State()), id)
  {
    var world := ctx.world;
    var m := world.maps[world.currentMapId];
    var actor := world.actors[id];
    var here := ItemsAt(m.items, actor.pos);
    if here == [] {
      return Failure(NOTHING_TO_PICKUP);
    }
    var item := here[0];
    var inventory := actor.stats.inventory;
    var i := 0;
    while i < |inventory| && Name(inventory[i]) != Name(item)
      invariant 0 <= i <= |inventory|
      invariant forall j :: 0 <= j < i ==> Name(inventory[j]) != Name(item)
    {
      i := i + 1;
    }
    world.log := world.log + [TakeMessage(item)];
    if i < |inventory| {
      FirstNameMatchIsFound(inventory, Name(item), i);
      inventory := inventory[i := inventory[i].(count := inventory[i].count + item.count)];
    } else {
      inventory := inventory + [item];
    }
    world.actors := world.actors[id := actor.(stats := actor.stats.(inventory := inventory))];
    world.maps := world.maps[world.currentMapId := m.(items := TakenFrom(m.items, actor.pos))];
    r := Success;
  }

  lemma FirstNameMatchIsFound(inventory: seq<Item>, name: string, i: nat)
    requires i < |inventory| && Name(inventory[i]) == name
    requires forall j :: 0 <= j < i ==> Name(inventory[j]) != name
    ensures FindStack(inventory, name) == Some(i)
  {
  }

  /** With no item at the actor's tile the result is "Nothing to pickup!" and nothing changes. */
  lemma NothingToPickupChangesNothing(s: WorldState, id: ActorID)
    requires CanAct(s, id)
    requires ItemsAt(ActiveMap(s).items, s.actors[id].pos) == []
    ensures PickedUp(s, id) == (s, Failure("Nothing to pickup!"))
  {
  }

  /**
   * When an item lies there, "You take the {name}." is logged and the result is Success; no other
   * actor, no other map, and nothing else about the actor changes.
   */
  lemma PickupSucceedsAndLogs(s: WorldState, id: ActorID)
    requires CanAct(s, id)
    requires ItemsAt(ActiveMap(s).items, s.actors[id].pos) != []
    ensures var item := ItemsAt(ActiveMap(s).items, s.actors[id].pos)[0];
      var (t, r) := PickedUp(s, id);
      && r == Success
      && t.log == s.log + ["You take the " + Name(item) + "."]
      && t.actors.Keys == s.actors.Keys
      && (forall other :: other in s.actors && other != id ==> t.actors[other] == s.actors[other])
      && t.actors[id] == s.actors[id].(stats := t.actors[id].stats)
      && t.actors[id].stats == s.actors[id].stats.(inventory := t.actors[id].stats.inventory)
      && t.maps.Keys == s.maps.Keys
      && (forall k :: k in s.maps && k != s.currentMapId ==> t.maps[k] == s.maps[k])
      && t.maps[s.currentMapId] == ActiveMap(s).(items := t.maps[s.currentMapId].items)
      && t.(log := s.log, actors := s.actors, maps := s.maps) == s
  {
  }

  /**
   * If some stack has the item's name, the first such stack grows by the item's count and the
   * inventory keeps its length and every other entry; otherwise the item is appended as the last
   * entry.
   */
  lemma StackedMergesOrAppends(inventory: seq<Item>, item: Item)
    ensures forall i :: (0 <= i < |inventory| && Name(inventory[i]) == Name(item)
      && (forall j :: 0 <= j < i ==> Name(inventory[j]) != Name(item))) ==>
        && |Stacked(inventory, item)| == |inventory|
        && Stacked(inventory, item)[i] == inventory[i].(count := inventory[i].count + item.count)
        && (forall j :: 0 <= j < |inventory| && j != i ==> Stacked(inventory, item)[j] == inventory[j])
    ensures (forall i :: 0 <= i < |inventory| ==> Name(inventory[i]) != Name(item)) ==>
      Stacked(inventory, item) == inventory + [item]
  {
    forall i | 0 <= i < |inventory| && Name(inventory[i]) == Name(item)
      && (forall j :: 0 <= j < i ==> Name(inventory[j]) != Name(item))
      ensures |Stacked(inventory, item)| == |inventory|
      ensures Stacked(inventory, item)[i] == inventory[i].(count := inventory[i].count + item.count)
    {
      FirstNameMatchIsFound(inventory, Name(item), i);
    }
  }

  /** Stacking keeps stack names distinct. */
  lemma StackedKeepsNamesDistinct(inventory: seq<Item>, item: Item)
    requires DistinctNames(inventory)
    ensures DistinctNames(Stacked(inventory, item))
  {
    var r := Stacked(inventory, item);
    match FindStack(inventory, Name(item))
    case Some(i) =>
      forall a, b | 0 <= a < b < |r| ensures Name(r[a]) != Name(r[b]) {
        assert Name(r[a]) == Name(inventory[a]) && Name(r[b]) == Name(inventory[b]);
      }
    case None =>
      forall a, b | 0 <= a < b < |r| ensures Name(r[a]) != Name(r[b]) {
        if b == |inventory| {
          assert r[b] == item;
          assert r[a] == inventory[a];
        } else {
          assert r[a] == inventory[a] && r[b] == inventory[b];
        }
      }
  }

  /** Stacking adds exactly the item's count to the inventory's total. */
  lemma StackedAddsItsCount(inventory: seq<Item>, item: Item)
    ensures TotalCount(Stacked(inventory, item)) == TotalCount(inventory) + item.count
  {
    match FindStack(inventory, Name(item))
    case Some(i) =>
      TotalCountUpdate(inventory, i, inventory[i].(count := inventory[i].count + item.count));
    case None =>
      TotalCountAppend(inventory, [item]);
      assert TotalCount([item]) == item.count + TotalCount([]);
  }

  /**
   * Exactly one entry, the first, leaves the actor's tile; entries at every other tile stay; and
   * the units taken from the map are the units added to the inventory.
   */
  lemma PickupMovesOneEntry(s: WorldState, id: ActorID)
    requires CanAct(s, id)
    requires ItemsAt(ActiveMap(s).items, s.actors[id].pos) != []
    ensures var p := s.actors[id].pos;
      var before := ActiveMap(s).items;
      var t := PickedUp(s, id).0;
      var after := t.maps[s.currentMapId].items;
      && ItemsAt(after, p) == ItemsAt(before, p)[1..]
      && (forall q :: q != p ==> ItemsAt(after, q) == ItemsAt(before, q))
      && TotalCount(t.actors[id].stats.inventory) + TotalCount(ItemsAt(after, p))
         == TotalCount(s.actors[id].stats.inventory) + TotalCount(ItemsAt(before, p))
  {
    var p := s.actors[id].pos;
    var here := ItemsAt(ActiveMap(s).items, p);
    StackedAddsItsCount(s.actors[id].stats.inventory, here[0]);
    assert here == [here[0]] + here[1..];
    TotalCountAppend([here[0]], here[1..]);
    assert TotalCount([here[0]]) == here[0].count + TotalCount([]);
  }
}
