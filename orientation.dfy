/**
 * The four cardinal directions of a player, in clockwise order, with the
 * cyclic arithmetic of the orientation operators (index modulo 4).
 */
module Orientation {
  datatype Orientation = North | East | South | West

  /** The enumerator's underlying value, clockwise from North. */
  function Index(o: Orientation): (i: nat)
    ensures i < 4
  {
    match o
    case North => 0
    case East => 1
    case South => 2
    case West => 3
  }

  function FromIndex(i: int): (o: Orientation)
    requires 0 <= i < 4
    ensures Index(o) == i
  {
    if i == 0 then North else if i == 1 then East else if i == 2 then South else West
  }

  lemma IndexInjective(a: Orientation, b: Orientation)
    requires Index(a) == Index(b)
    ensures a == b
  {
  }

  /** `o + k`: k quarter turns clockwise (negative k turns counter-clockwise). */
  function Add(o: Orientation, k: int): (r: Orientation)
    ensures Index(r) == (Index(o) + k) % 4
  {
    FromIndex((Index(o) + k) % 4)
  }

  /** `o - k`: k quarter turns counter-clockwise. */
  function Sub(o: Orientation, k: int): (r: Orientation)
    ensures Index(r) == (Index(o) - k) % 4
  {
    FromIndex((Index(o) - k) % 4)
  }

  /** Unary minus: the opposite direction. */
  function Opposite(o: Orientation): (r: Orientation)
    ensures r != o
    ensures Index(r) == (Index(o) + 2) % 4
  {
    match o
    case North => South
    case East => West
    case South => North
    case West => East
  }

  /** Prefix `++`: a quarter turn clockwise. */
  function Next(o: Orientation): (r: Orientation)
    ensures r == Add(o, 1)
  {
    match o
    case North => East
    case East => South
    case South => West
    case West => North
  }

  /** Prefix `--`: a quarter turn counter-clockwise. */
  function Prev(o: Orientation): (r: Orientation)
    ensures r == Sub(o, 1)
  {
    match o
    case North => West
    case East => North
    case South => East
    case West => South
  }

  /** Postfix `++` and `--`: the value before the turn, and the turned value stored back. */
  function PostIncrement(o: Orientation): (r: (Orientation, Orientation))
    ensures r.0 == o && r.1 == Next(o)
  {
    (o, Next(o))
  }

  function PostDecrement(o: Orientation): (r: (Orientation, Orientation))
    ensures r.0 == o && r.1 == Prev(o)
  {
    (o, Prev(o))
  }

  /** Adding then subtracting the same offset returns to the start. */
  lemma AddSubInverse(o: Orientation, k: int)
    ensures Sub(Add(o, k), k) == o
    ensures Add(Sub(o, k), k) == o
  {
    IndexInjective(Sub(Add(o, k), k), o);
    IndexInjective(Add(Sub(o, k), k), o);
  }

  /** Offsets compose, and only their value modulo 4 matters. */
  lemma AddCompose(o: Orientation, a: int, b: int)
    ensures Add(Add(o, a), b) == Add(o, a + b)
    ensures Add(o, a + 4) == Add(o, a)
  {
    IndexInjective(Add(Add(o, a), b), Add(o, a + b));
    IndexInjective(Add(o, a + 4), Add(o, a));
  }

  /** Two half turns and four quarter turns are the identity; ++ and -- undo each other. */
  lemma TurnsCycle(o: Orientation)
    ensures Opposite(Opposite(o)) == o
    ensures Opposite(o) == Add(o, 2) && Opposite(o) == Sub(o, 2)
    ensures Next(Next(Next(Next(o)))) == o
    ensures Prev(Next(o)) == o && Next(Prev(o)) == o
  {
  }

  /** orientationStrings. */
  function ShortName(o: Orientation): (s: string)
    ensures |s| == 1
  {
    ["N", "E", "S", "W"][Index(o)]
  }

  /** orientationFullStrings. */
  function FullName(o: Orientation): (s: string)
    ensures |s| >= 4
  {
    ["North", "East", "South", "West"][Index(o)]
  }

  /** Each abbreviation is the initial of the full name, and both tables name each direction once. */
  lemma NamesAgree(a: Orientation, b: Orientation)
    ensures ShortName(a) == FullName(a)[..1]
    ensures ShortName(a) == ShortName(b) ==> a == b
    ensures FullName(a) == FullName(b) ==> a == b
  {
  }
}
