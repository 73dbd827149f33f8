/** Position: an integer map coordinate with vector arithmetic, equality and a hash. */
module Positions {

  datatype Position = Position(x: int, y: int)

  /** 2^64: `std::size_t` arithmetic wraps modulo this value. */
  const SIZE_MODULUS: int := 0x1_0000_0000_0000_0000

  /** `operator+`: componentwise addition. */
  function Plus(a: Position, b: Position): Position {
    Position(a.x + b.x, a.y + b.y)
  }

  /** `operator-`: componentwise subtraction. */
  function Minus(a: Position, b: Position): Position {
    Position(a.x - b.x, a.y - b.y)
  }

  /** `operator==`: both coordinates equal. */
  predicate Equals(a: Position, b: Position) {
    a.x == b.x && a.y == b.y
  }

  /** `operator!=`: the negation of `operator==`. */
  predicate NotEquals(a: Position, b: Position) {
    !Equals(a, b)
  }

  /** `std::hash<Position>`: `x + 97 * y`, converted to `std::size_t` (so taken modulo 2^64). */
  function Hash(p: Position): (h: int)
    ensures 0 <= h < SIZE_MODULUS
  {
    (p.x + p.y * 97) % SIZE_MODULUS
  }

  /** Subtracting what was added gives back the original position. */
  lemma PlusMinusRoundTrip(p: Position, q: Position)
    ensures Minus(Plus(p, q), q) == p
    ensures Plus(Minus(p, q), q) == p
  {
  }

  /** The operator `==` coincides with structural equality, and `!=` with its negation. */
  lemma EqualsIsEquality(a: Position, b: Position)
    ensures Equals(a, b) <==> a == b
    ensures NotEquals(a, b) <==> a != b
  {
  }

  /** Equal positions hash equally. */
  lemma HashRespectsEquals(a: Position, b: Position)
    requires Equals(a, b)
    ensures Hash(a) == Hash(b)
  {
  }

  /** On a grid narrower than 97 columns (and of fewer than 2^32 rows) the hash has no collisions. */
  lemma HashInjectiveOnNarrowGrid(a: Position, b: Position)
    requires 0 <= a.x < 97 && 0 <= b.x < 97
    requires 0 <= a.y < 0x1_0000_0000 && 0 <= b.y < 0x1_0000_0000
    requires Hash(a) == Hash(b)
    ensures a == b
  {
    assert Hash(a) == a.x + a.y * 97;
    assert Hash(b) == b.x + b.y * 97;
  }
}
