/**
 * The scene's reaction to the game state: which renderer call a position
 * update turns into (a quarter turn, a snap to a new orientation, one step
 * forward, a jump, or nothing), and which players an expulsion pushes, and
 * where.
 */
module Scene {
  import opened Orientation
  import opened CppInt
  import opened Players
  import opened EjectCommand

  /** The renderer call updatePlayerPosition makes, if any. */
  datatype PositionCall =
    | NoCall
    | LookLeft(id: int)
    | LookRight(id: int)
    | Look(id: int, orientation: Orientation)
    | MoveForward(id: int, x: int, y: int)
    | SetPosition(id: int, x: int, y: int, orientation: Orientation)

  /** The game state's copy of a player before the update: id, tile and orientation. */
  datatype Known = Known(id: int, x: int, y: int, orientation: Orientation)

  /** One playerExpulsion(id, x, y) call on the renderer: the pushed player and where it is drawn. */
  datatype ExpelCall = ExpelCall(id: int, x: int, y: int)

  /**
   * updatePlayerPosition(id, x, y, orientation) for the player p on a w x h
   * map: a changed orientation is a turn whatever the position; an
   * unchanged one is a forward step only for the one wrapped tile ahead, a
   * jump when both coordinates change, and otherwise nothing.
   */
  function PositionUpdate(p: Known, x: int, y: int, o: Orientation, w: int, h: int): (c: PositionCall)
    requires o == p.orientation && p.x == x && p.y != y ==> h != 0
    requires o == p.orientation && p.x != x && p.y == y ==> w != 0
    ensures o != p.orientation ==> c.LookLeft? || c.LookRight? || c.Look?
    ensures c.SetPosition? <==> o == p.orientation && x != p.x && y != p.y
    ensures c.MoveForward? ==> o == p.orientation && (x == p.x) != (y == p.y) && c == MoveForward(p.id, x, y)
    ensures o == p.orientation && x == p.x && y == p.y ==> c == NoCall
  {
    if p.orientation != o then
      if o == Sub(p.orientation, 1) then LookLeft(p.id)
      else if o == Add(p.orientation, 1) then LookRight(p.id)
      else Look(p.id, o)
    else if p.x == x && p.y == y then NoCall
    else if p.x == x then
      if (y == Rem(p.y - 1 + h, h) && p.orientation == North) || (y == Rem(p.y + 1, h) && p.orientation == South) then
        MoveForward(p.id, x, y)
      else NoCall
    else if p.y == y then
      if (x == Rem(p.x + 1, w) && p.orientation == East) || (x == Rem(p.x - 1 + w, w) && p.orientation == West) then
        MoveForward(p.id, x, y)
      else NoCall
    else SetPosition(p.id, x, y, o)
  }

  /**
   * The target playerExpulsion computes, as written: one step with North as
   * y + 1 and South as y - 1, and the int sum taken modulo the size_t map
   * size, so that -1 first becomes 2^64 - 1.
   */
  function ExpulsionTargetAsWritten(x: int, y: int, o: Orientation, w: nat, h: nat): (r: (int, int))
    requires (o == East || o == West ==> w > 0) && (o == North || o == South ==> h > 0)
  {
    var nx := if o == East || o == West then ToSize(x + (if o == West then -1 else 1)) % w else x;
    var ny := if o == North || o == South then ToSize(y + (if o == South then -1 else 1)) % h else y;
    (nx, ny)
  }

  /** Where an expelled player is evidently meant to be drawn: the tile the server pushes it to. */
  function ExpulsionTarget(x: int, y: int, o: Orientation, w: nat, h: nat): (r: (int, int))
    requires w > 0 && h > 0
    ensures 0 <= r.0 < w && 0 <= r.1 < h
    ensures 0 <= x < w && 0 <= y < h ==> r == EjectPosition(x, y, o, w, h)
  {
    ForwardPosition(x, y, o, w, h)
  }

  /** The players on the expeller's tile other than the expeller, each drawn at target. */
  function ExpulsionCalls(onTile: seq<int>, id: int, target: (int, int)): (r: seq<ExpelCall>)
    ensures forall c :: c in r <==> c.id in onTile && c.id != id && (c.x, c.y) == target
  {
    if onTile == [] then []
    else
      var init := onTile[..|onTile| - 1];
      assert onTile == init + [onTile[|onTile| - 1]];
      var rest := ExpulsionCalls(init, id, target);
      if onTile[|onTile| - 1] == id then rest else rest + [ExpelCall(onTile[|onTile| - 1], target.0, target.1)]
  }

  /**
   * playerExpulsion(id) by the player p facing p.orientation: every other
   * player listed on p's tile, in the list's order, is drawn on the target
   * the code computes, North as y + 1 and the size_t wrap included.
   */
  method PlayerExpulsion(p: Known, onTile: seq<int>, w: nat, h: nat) returns (calls: seq<ExpelCall>)
    requires w > 0 && h > 0
    ensures calls == ExpulsionCalls(onTile, p.id, ExpulsionTargetAsWritten(p.x, p.y, p.orientation, w, h))
  {
    var target := ExpulsionTargetAsWritten(p.x, p.y, p.orientation, w, h);
    calls := [];
    var i := 0;
    while i < |onTile|
      invariant i <= |onTile|
      invariant calls == ExpulsionCalls(onTile[..i], p.id, target)
    {
      assert onTile[..i + 1][..i] == onTile[..i];
      if onTile[i] != p.id {
        calls := calls + [ExpelCall(onTile[i], target.0, target.1)];
      }
      i := i + 1;
    }
    assert onTile[..i] == onTile;
  }

  /**
   * The expulsion as it is evidently meant: every other player on p's tile
   * is drawn on the tile the server pushes it to.
   */
  function CorrectedExpulsion(p: Known, onTile: seq<int>, w: nat, h: nat): (r: seq<ExpelCall>)
    requires w > 0 && h > 0
    ensures 0 <= p.x < w && 0 <= p.y < h ==>
      forall c :: c in r <==> c.id in onTile && c.id != p.id && (c.x, c.y) == EjectPosition(p.x, p.y, p.orientation, w, h)
  {
    ExpulsionCalls(onTile, p.id, ExpulsionTarget(p.x, p.y, p.orientation, w, h))
  }

  /** Facing East, the expulsion as written draws the same calls as the corrected one. */
  lemma ExpulsionEastAsIntended(p: Known, onTile: seq<int>, w: nat, h: nat)
    requires 0 < w < SizeModulus && h > 0 && p.orientation == East && 0 <= p.x < w && 0 <= p.y < h
    ensures ExpulsionCalls(onTile, p.id, ExpulsionTargetAsWritten(p.x, p.y, p.orientation, w, h)) == CorrectedExpulsion(p, onTile, w, h)
  {
    ExpulsionEastAgrees(p.x, p.y, w, h);
  }

  // ---- properties ----------------------------------------------------------------------

  /**
   * A new orientation is a left turn when it is a quarter turn
   * counter-clockwise, a right turn when it is a quarter turn clockwise, and
   * a snap for the half turn, wherever the player now stands.
   */
  lemma TurnClassified(p: Known, x: int, y: int, o: Orientation, w: int, h: int)
    requires o != p.orientation
    ensures var c := PositionUpdate(p, x, y, o, w, h);
      && (c.LookLeft? <==> Index(o) == (Index(p.orientation) + 3) % 4)
      && (c.LookRight? <==> Index(o) == (Index(p.orientation) + 1) % 4)
      && (c.Look? <==> Index(o) == (Index(p.orientation) + 2) % 4)
      && c == PositionUpdate(p, p.x, p.y, o, 1, 1)
  {
    var turn := if o == Sub(p.orientation, 1) then LookLeft(p.id)
      else if o == Add(p.orientation, 1) then LookRight(p.id)
      else Look(p.id, o);
    assert PositionUpdate(p, x, y, o, w, h) == turn;
    assert PositionUpdate(p, p.x, p.y, o, 1, 1) == turn;
    TurnIndices(p.orientation, o);
  }

  /** A different orientation is a quarter turn one way, a quarter turn the other way, or the half turn. */
  lemma TurnIndices(a: Orientation, o: Orientation)
    requires o != a
    ensures o == Sub(a, 1) <==> Index(o) == (Index(a) + 3) % 4
    ensures o == Add(a, 1) <==> Index(o) == (Index(a) + 1) % 4
    ensures o != Sub(a, 1) && o != Add(a, 1) <==> Index(o) == (Index(a) + 2) % 4
  {
    assert Index(Sub(a, 1)) == (Index(a) + 3) % 4;
    assert Index(Add(a, 1)) == (Index(a) + 1) % 4;
    if Index(o) == (Index(a) + 3) % 4 {
      IndexInjective(Sub(a, 1), o);
    }
    if Index(o) == (Index(a) + 1) % 4 {
      IndexInjective(Add(a, 1), o);
    }
  }

  /**
   * For a player on the map keeping its orientation, the update is a
   * forward step exactly when the new tile is the torus step ahead of it
   * and differs from the old one.
   */
  lemma ForwardRecognised(p: Known, x: int, y: int, w: int, h: int)
    requires w > 0 && h > 0 && 0 <= p.x < w && 0 <= p.y < h
    ensures PositionUpdate(p, x, y, p.orientation, w, h).MoveForward?
      <==> (x, y) == ForwardPosition(p.x, p.y, p.orientation, w, h) && (x, y) != (p.x, p.y)
  {
    match p.orientation {
      case North =>
        RemNonNegative(p.y - 1 + h, h);
        WrapOnce(p.y - 1 + h, h);
      case South =>
        RemNonNegative(p.y + 1, h);
        WrapOnce(p.y + 1, h);
      case East =>
        RemNonNegative(p.x + 1, w);
        WrapOnce(p.x + 1, w);
      case West =>
        RemNonNegative(p.x - 1 + w, w);
        WrapOnce(p.x - 1 + w, w);
    }
  }

  /** The as-written expulsion pushes a player facing North towards y + 1, where the server pushes it to y - 1. */
  lemma ExpulsionNorthReversed()
    ensures ExpulsionTargetAsWritten(2, 2, North, 5, 5) == (2, 3)
    ensures EjectPosition(2, 2, North, 5, 5) == (2, 1) && ExpulsionTarget(2, 2, North, 5, 5) == (2, 1)
  {
    RemNonNegative(1, 5);
  }

  /** At the west edge of a 10-wide map the as-written target wraps through 2^64 and lands on column 5, not 9. */
  lemma ExpulsionWestEdgeWrapsWrong()
    ensures ExpulsionTargetAsWritten(0, 3, West, 10, 10) == (5, 3)
    ensures EjectPosition(0, 3, West, 10, 10) == (9, 3) && ExpulsionTarget(0, 3, West, 10, 10) == (9, 3)
  {
    assert ToSize(-1) == SizeModulus - 1;
    assert (SizeModulus - 1) % 10 == 5;
    RemNonNegative(9, 10);
    WrapStep(-1, 10);
  }

  /** Away from the edges and facing east, the as-written target already agrees with the server. */
  lemma ExpulsionEastAgrees(x: int, y: int, w: nat, h: nat)
    requires 0 < w < SizeModulus && h > 0 && 0 <= x < w && 0 <= y < h
    ensures ExpulsionTargetAsWritten(x, y, East, w, h) == ExpulsionTarget(x, y, East, w, h)
  {
    WrapStep(x + 1, w);
  }
}
