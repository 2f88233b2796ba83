/** A player: an egg's id and position plus level, orientation, team, prayer flag and inventory. */
module Players {
  import opened Orientation
  import opened Resource
  import opened ResourceContainer

  /** One step of the given orientation, as a vector: North is y - 1, East is x + 1. */
  function DirectionVector(o: Orientation): (v: (int, int))
    ensures v.0 * v.0 + v.1 * v.1 == 1
  {
    match o
    case North => (0, -1)
    case East => (1, 0)
    case South => (0, 1)
    case West => (-1, 0)
  }

  /** Opposite orientations step in opposite directions. */
  lemma DirectionOpposite(o: Orientation)
    ensures DirectionVector(Opposite(o)) == (-DirectionVector(o).0, -DirectionVector(o).1)
  {
  }

  /** One tile forward from (x, y) on a w x h torus. */
  function ForwardPosition(x: int, y: int, o: Orientation, w: nat, h: nat): (p: (int, int))
    requires w > 0 && h > 0
    ensures 0 <= p.0 < w && 0 <= p.1 < h
    ensures var v := DirectionVector(o);
      (0 <= x + v.0 < w ==> p.0 == x + v.0) && (x + v.0 == -1 ==> p.0 == w - 1) && (x + v.0 == w ==> p.0 == 0)
    ensures var v := DirectionVector(o);
      (0 <= y + v.1 < h ==> p.1 == y + v.1) && (y + v.1 == -1 ==> p.1 == h - 1) && (y + v.1 == h ==> p.1 == 0)
  {
    var v := DirectionVector(o);
    WrapStep(x + v.0, w);
    WrapStep(y + v.1, h);
    ((x + v.0) % w, (y + v.1) % h)
  }

  /** Taking a coordinate one step outside [0, n) modulo n brings it back at the other edge. */
  lemma WrapStep(a: int, n: nat)
    requires n > 0
    ensures 0 <= a % n < n
    ensures (0 <= a < n ==> a % n == a) && (a == -1 ==> a % n == n - 1) && (a == n ==> a % n == 0)
  {
    if a == -1 {
      assert a == -1 * n + (n - 1);
    } else if a == n {
      assert a == 1 * n + 0;
    }
  }

  class Player {
    const id: int
    var fatherId: int
    var x: int
    var y: int
    var level: nat
    var orientation: Orientation
    var teamName: string
    var praying: bool
    var inventory: Stock

    /** Player(id, x, y, orientation = NORTH, level = 1), not praying, with an empty inventory. */
    constructor (id: int, x: int, y: int, o: Orientation, level: nat)
      ensures this.id == id && this.x == x && this.y == y
      ensures orientation == o && this.level == level
      ensures !praying && inventory == Empty() && teamName == ""
    {
      this.id, this.fatherId, this.x, this.y := id, -1, x, y;
      this.level, this.orientation, this.teamName := level, o, "";
      praying, inventory := false, Empty();
    }

    /** The defaults of the constructor: facing North at level 1. */
    constructor Default(id: int, x: int, y: int)
      ensures this.id == id && this.x == x && this.y == y
      ensures orientation == North && level == 1
      ensures !praying && inventory == Empty() && teamName == ""
    {
      this.id, this.fatherId, this.x, this.y := id, -1, x, y;
      this.level, this.orientation, this.teamName := 1, North, "";
      praying, inventory := false, Empty();
    }

    method Pray()
      modifies this`praying
      ensures praying
    {
      praying := true;
    }

    method StopPraying()
      modifies this`praying
      ensures !praying
    {
      praying := false;
    }

    /** lookLeft: a quarter turn counter-clockwise. */
    method LookLeft()
      modifies this`orientation
      ensures orientation == Prev(old(orientation)) && orientation == Sub(old(orientation), 1)
    {
      orientation := Prev(orientation);
    }

    /** lookRight: a quarter turn clockwise. */
    method LookRight()
      modifies this`orientation
      ensures orientation == Next(old(orientation)) && orientation == Add(old(orientation), 1)
    {
      orientation := Next(orientation);
    }

    /** stepForward(width, height): one tile ahead, wrapped onto the map. */
    method StepForward(w: nat, h: nat)
      requires w > 0 && h > 0
      modifies this`x, this`y
      ensures (x, y) == ForwardPosition(old(x), old(y), orientation, w, h)
      ensures 0 <= x < w && 0 <= y < h
    {
      var p := ForwardPosition(x, y, orientation, w, h);
      x, y := p.0, p.1;
    }

    method SetInventory(inv: Stock)
      modifies this`inventory
      ensures inventory == inv
    {
      inventory := inv;
    }

    /** collectRessource(resource, quantity): the source's default quantity is 1. */
    method CollectRessource(r: Resource, q: nat)
      modifies this`inventory
      ensures inventory == AddTo(old(inventory), r, q)
    {
      inventory := AddTo(inventory, r, q);
    }

    /** dropRessource(resource, quantity): never more than is held. */
    method DropRessource(r: Resource, q: nat)
      requires q <= Quantity(inventory, r)
      modifies this`inventory
      ensures inventory == RemoveFrom(old(inventory), r, q)
    {
      inventory := RemoveFrom(inventory, r, q);
    }
  }
}
