/** Consuming one charge of an inventory item, discarding the stack once it is exhausted. */
module ItemTools {
  import opened Optional
  import opened WorldModel

  /** The sum of the counts of an inventory's stacks. */
  function TotalCount(inventory: seq<Item>): int {
    if inventory == [] then 0 else inventory[0].count + TotalCount(inventory[1..])
  }

  /** Two stacks never share a name. */
  predicate DistinctNames(inventory: seq<Item>) {
    forall i, j :: 0 <= i < j < |inventory| ==> Name(inventory[i]) != Name(inventory[j])
  }

  /** What a consumable item needs: it is in the inventory (entry `index`) and has a charge. */
  predicate CanConsume(inventory: seq<Item>, index: int) {
    0 <= index < |inventory| && inventory[index].count > 0
  }

  /**
   * The inventory after one charge of entry `index` is used: its count drops by one, and the entry
   * is erased when that leaves it at zero or below. Other entries keep their values and their order.
   */
  function Consumed(inventory: seq<Item>, index: nat): (r: seq<Item>)
    requires index < |inventory|
    ensures inventory[index].count <= 1 ==>
      |r| == |inventory| - 1
      && (forall j :: 0 <= j < index ==> r[j] == inventory[j])
      && (forall j :: index < j < |inventory| ==> r[j - 1] == inventory[j])
    ensures inventory[index].count > 1 ==>
      |r| == |inventory|
      && r[index] == inventory[index].(count := inventory[index].count - 1)
      && (forall j :: 0 <= j < |inventory| && j != index ==> r[j] == inventory[j])
  {
    var item := inventory[index].(count := inventory[index].count - 1);
    if item.count <= 0 then inventory[..index] + inventory[index + 1..] else inventory[index := item]
  }

  /** The world after actor `id` consumes one charge of inventory entry `index`. */
  function ConsumedIn(s: WorldState, id: ActorID, index: nat): (t: WorldState)
    requires id in s.actors && index < |s.actors[id].stats.inventory|
    ensures t.actors.Keys == s.actors.Keys
    ensures t.actors[id] == s.actors[id].(stats := s.actors[id].stats.(inventory := Consumed(s.actors[id].stats.inventory, index)))
    ensures forall a :: a in s.actors && a != id ==> t.actors[a] == s.actors[a]
    ensures t.(actors := s.actors) == s
  {
    var stats := s.actors[id].stats;
    WithStats(s, id, stats.(inventory := Consumed(stats.inventory, index)))
  }

  /**
   * `consume_discard_item`: returns the entry's index while the stack still exists (the source
   * returns the same item), or None once it has been erased (the source returns null).
   */
  method ConsumeDiscardItem(world: World, id: ActorID, index: nat) returns (kept: Option<nat>)
    requires id in world.actors && CanConsume(world.actors[id].stats.inventory, index)
    modifies world`actors
    ensures world.State() == ConsumedIn(old(world.State()), id, index)
    ensures kept == if old(world.actors[id].stats.inventory[index].count) <= 1 then None else Some(index)
  {
    var actor := world.actors[id];
    var inventory := actor.stats.inventory;
    var item := inventory[index].(count := inventory[index].count - 1);
    if item.count <= 0 {
      inventory := inventory[..index] + inventory[index + 1..];
      kept := None;
    } else {
      inventory := inventory[index := item];
      kept := Some(index);
    }
    world.actors := world.actors[id := actor.(stats := actor.stats.(inventory := inventory))];
  }

  lemma {:induction false} TotalCountAppend(a: seq<Item>, b: seq<Item>)
    ensures TotalCount(a + b) == TotalCount(a) + TotalCount(b)
  {
    if a == [] {
      assert a + b == b;
    } else {
      assert (a + b)[1..] == a[1..] + b;
      TotalCountAppend(a[1..], b);
    }
  }

  /** Changing one entry's count changes the total by exactly the difference. */
  lemma {:induction false} TotalCountUpdate(inventory: seq<Item>, index: nat, item: Item)
    requires index < |inventory|
    ensures TotalCount(inventory[index := item]) == TotalCount(inventory) - inventory[index].count + item.count
  {
    if index > 0 {
      assert inventory[index := item][1..] == inventory[1..][index - 1 := item];
      TotalCountUpdate(inventory[1..], index - 1, item);
    }
  }

  /** Erasing one entry lowers the total by that entry's count. */
  lemma TotalCountErase(inventory: seq<Item>, index: nat)
    requires index < |inventory|
    ensures TotalCount(inventory[..index] + inventory[index + 1..]) == TotalCount(inventory) - inventory[index].count
  {
    assert inventory == inventory[..index] + ([inventory[index]] + inventory[index + 1..]);
    TotalCountAppend(inventory[..index], [inventory[index]] + inventory[index + 1..]);
    TotalCountAppend([inventory[index]], inventory[index + 1..]);
    TotalCountAppend(inventory[..index], inventory[index + 1..]);
    assert TotalCount([inventory[index]]) == inventory[index].count + TotalCount([]);
  }

  /** Consuming a charged item removes exactly one unit from the inventory's total count. */
  lemma ConsumedRemovesOneUnit(inventory: seq<Item>, index: nat)
    requires CanConsume(inventory, index)
    ensures TotalCount(Consumed(inventory, index)) == TotalCount(inventory) - 1
  {
    var item := inventory[index].(count := inventory[index].count - 1);
    if item.count <= 0 {
      TotalCountErase(inventory, index);
    } else {
      TotalCountUpdate(inventory, index, item);
    }
  }

  /** Consuming keeps stack names distinct: every remaining entry was already there. */
  lemma ConsumedKeepsNamesDistinct(inventory: seq<Item>, index: nat)
    requires index < |inventory| && DistinctNames(inventory)
    ensures DistinctNames(Consumed(inventory, index))
  {
    var r := Consumed(inventory, index);
    if inventory[index].count <= 1 {
      forall i, j | 0 <= i < j < |r| ensures Name(r[i]) != Name(r[j]) {
        var i' := if i < index then i else i + 1;
        var j' := if j < index then j else j + 1;
        assert r[i] == inventory[i'] && r[j] == inventory[j'];
      }
    }
  }
}
