/** MapID: the composite key (name, level) of a dungeon map. */
module MapIds {

  datatype MapID = MapID(name: string, level: int)

  /** Aggregate initialisation `MapID{name}`: the level takes its default member initialiser. */
  function Named(name: string): (id: MapID)
    ensures id.name == name && id.level == DEFAULT_LEVEL
  {
    MapID(name, DEFAULT_LEVEL)
  }

  /** The default member initialiser of `level`. */
  const DEFAULT_LEVEL: int := 0

  /** `operator==`: names and levels both equal. */
  predicate Equals(a: MapID, b: MapID) {
    a.name == b.name && a.level == b.level
  }

  /** `operator!=`: the negation of `operator==`. */
  predicate NotEquals(a: MapID, b: MapID) {
    !Equals(a, b)
  }

  /**
   * `std::hash<MapID>`: the XOR of the string hash of the name and the integer hash of the level.
   * Both standard-library hashes are implementation-defined, so they are parameters here.
   */
  function Hash(id: MapID, hashName: string -> bv64, hashLevel: int -> bv64): bv64 {
    hashName(id.name) ^ hashLevel(id.level)
  }

  /** `==` coincides with structural equality, and `!=` with its negation. */
  lemma EqualsIsEquality(a: MapID, b: MapID)
    ensures Equals(a, b) <==> a == b
    ensures NotEquals(a, b) <==> a != b
  {
  }

  /** Equal ids hash equally, whatever the underlying string and integer hashes are. */
  lemma HashRespectsEquals(a: MapID, b: MapID, hashName: string -> bv64, hashLevel: int -> bv64)
    requires Equals(a, b)
    ensures Hash(a, hashName, hashLevel) == Hash(b, hashName, hashLevel)
  {
  }

  /** Two maps that differ only in level hash differently when the level hash separates the levels. */
  lemma HashSeparatesLevels(a: MapID, b: MapID, hashName: string -> bv64, hashLevel: int -> bv64)
    requires a.name == b.name && hashLevel(a.level) != hashLevel(b.level)
    ensures Hash(a, hashName, hashLevel) != Hash(b, hashName, hashLevel)
  {
    var n := hashName(a.name);
    var la, lb := hashLevel(a.level), hashLevel(b.level);
    assert (n ^ la) ^ n == la;
    assert (n ^ lb) ^ n == lb;
  }
}
