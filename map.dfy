/** The tile grid: `width` columns of `height` tiles, indexed tiles[x][y]. */
module GameMap {
  import opened Resource
  import opened ResourceContainer

  type Grid = seq<seq<Stock>>

  predicate IsGrid(g: Grid, w: nat, h: nat)
  {
    |g| == w && forall x :: 0 <= x < w ==> |g[x]| == h
  }

  /** A grid of w x h empty tiles. */
  function EmptyGrid(w: nat, h: nat): (g: Grid)
    ensures IsGrid(g, w, h)
    ensures forall x, y :: 0 <= x < w && 0 <= y < h ==> g[x][y] == Empty()
  {
    seq(w, _ => seq(h, _ => Empty()))
  }

  /** The grid with tile (x, y) replaced by t. */
  function WithTile(g: Grid, x: nat, y: nat, t: Stock): (r: Grid)
    requires x < |g| && y < |g[x]|
    ensures |r| == |g| && forall i :: 0 <= i < |g| ==> |r[i]| == |g[i]|
    ensures r[x][y] == t
    ensures forall i, j :: 0 <= i < |g| && 0 <= j < |g[i]| && (i != x || j != y) ==> r[i][j] == g[i][j]
  {
    var column: seq<Stock> := g[x][y := t];
    g[x := column]
  }

  /** Writing back a tile's own content leaves the grid as it was. */
  lemma WithTileSame(g: Grid, x: nat, y: nat)
    requires x < |g| && y < |g[x]|
    ensures WithTile(g, x, y, g[x][y]) == g
  {
    assert g[x][y := g[x][y]] == g[x];
  }

  /** The later of two writes to the same tile wins. */
  lemma WithTileTwice(g: Grid, x: nat, y: nat, a: Stock, b: Stock)
    requires x < |g| && y < |g[x]|
    ensures WithTile(WithTile(g, x, y, a), x, y, b) == WithTile(g, x, y, b)
  {
    assert g[x][y := a][y := b] == g[x][y := b];
  }

  /** Units of kind r in one column. */
  function ColumnTotal(c: seq<Stock>, r: Resource): nat
  {
    if c == [] then 0 else Quantity(c[0], r) + ColumnTotal(c[1..], r)
  }

  /** Units of kind r on the whole grid. */
  function GridTotal(g: Grid, r: Resource): nat
  {
    if g == [] then 0 else ColumnTotal(g[0], r) + GridTotal(g[1..], r)
  }

  lemma {:induction false} ColumnTotalUpdate(c: seq<Stock>, y: nat, t: Stock, r: Resource)
    requires y < |c|
    ensures ColumnTotal(c[y := t], r) + Quantity(c[y], r) == ColumnTotal(c, r) + Quantity(t, r)
  {
    if y > 0 {
      assert c[y := t][1..] == c[1..][y - 1 := t];
      ColumnTotalUpdate(c[1..], y - 1, t, r);
    }
  }

  /** Replacing one tile changes a kind's grid total by exactly the difference on that tile. */
  lemma {:induction false} GridTotalUpdate(g: Grid, x: nat, y: nat, t: Stock, r: Resource)
    requires x < |g| && y < |g[x]|
    ensures GridTotal(WithTile(g, x, y, t), r) + Quantity(g[x][y], r) == GridTotal(g, r) + Quantity(t, r)
  {
    if x == 0 {
      ColumnTotalUpdate(g[0], y, t, r);
      assert WithTile(g, x, y, t)[1..] == g[1..];
    } else {
      assert WithTile(g, x, y, t)[1..] == WithTile(g[1..], x - 1, y, t);
      GridTotalUpdate(g[1..], x - 1, y, t, r);
    }
  }

  lemma {:induction false} ColumnTotalEmpty(h: nat, r: Resource)
    ensures ColumnTotal(seq(h, _ => Empty()), r) == 0
  {
    if h > 0 {
      assert seq(h, _ => Empty())[1..] == seq(h - 1, _ => Empty());
      ColumnTotalEmpty(h - 1, r);
    }
  }

  /** An empty grid holds nothing of any kind. */
  lemma {:induction false} GridTotalEmpty(w: nat, h: nat, r: Resource)
    ensures GridTotal(EmptyGrid(w, h), r) == 0
  {
    if w > 0 {
      assert EmptyGrid(w, h)[1..] == EmptyGrid(w - 1, h);
      ColumnTotalEmpty(h, r);
      GridTotalEmpty(w - 1, h, r);
    }
  }

  /** Map: a resizable grid of tiles, updated tile by tile. */
  class Map {
    var width: nat
    var height: nat
    var tiles: Grid

    ghost predicate Valid()
      reads this
    {
      IsGrid(tiles, width, height)
    }

    /** Map(width, height): every tile empty (the source defaults both sizes to 0). */
    constructor (w: nat, h: nat)
      ensures Valid() && width == w && height == h
      ensures tiles == EmptyGrid(w, h)
    {
      width, height := w, h;
      tiles := EmptyGrid(w, h);
    }

    /** getTile(x, y): the tile in column x, row y. */
    function GetTile(x: nat, y: nat): (t: Stock)
      requires Valid() && x < width && y < height
      reads this
    {
      tiles[x][y]
    }

    /** getResourceQuantity(type): units of that kind summed over all tiles. */
    function GetResourceQuantity(r: Resource): nat
      reads this
    {
      GridTotal(tiles, r)
    }

    /** setTile: replaces exactly the tile (x, y). */
    method SetTile(x: nat, y: nat, t: Stock)
      requires Valid() && x < width && y < height
      modifies this`tiles
      ensures Valid()
      ensures tiles == WithTile(old(tiles), x, y, t)
      ensures GetTile(x, y) == t
      ensures forall r :: GetResourceQuantity(r) + Quantity(old(tiles)[x][y], r) == old(GetResourceQuantity(r)) + Quantity(t, r)
    {
      forall r ensures GridTotal(WithTile(tiles, x, y, t), r) + Quantity(tiles[x][y], r) == GridTotal(tiles, r) + Quantity(t, r) {
        GridTotalUpdate(tiles, x, y, t, r);
      }
      tiles := WithTile(tiles, x, y, t);
    }

    /** clearTile: the tile (x, y) emptied, every other tile untouched. */
    method ClearTile(x: nat, y: nat)
      requires Valid() && x < width && y < height
      modifies this`tiles
      ensures Valid()
      ensures tiles == WithTile(old(tiles), x, y, Empty())
    {
      SetTile(x, y, Empty());
    }

    /** clear: every tile emptied, so no kind is left on the map. */
    method Clear()
      requires Valid()
      modifies this`tiles
      ensures Valid() && tiles == EmptyGrid(width, height)
      ensures forall r :: GetResourceQuantity(r) == 0
    {
      tiles := EmptyGrid(width, height);
      forall r ensures GridTotal(tiles, r) == 0 {
        GridTotalEmpty(width, height, r);
      }
    }
  }
}
