/** An egg: a fixed id, an optional father, and a position that may change. */
module Eggs {
  /** fatherId of an egg that no player laid. */
  const NoFather: int := -1

  class Egg {
    const id: int
    var fatherId: int
    var x: int
    var y: int

    /** Egg(id, fatherId, x, y). */
    constructor (id: int, fatherId: int, x: int, y: int)
      ensures this.id == id && this.fatherId == fatherId && this.x == x && this.y == y
    {
      this.id, this.fatherId, this.x, this.y := id, fatherId, x, y;
    }

    /** Egg(id, x, y): an egg without a father. */
    constructor WithoutFather(id: int, x: int, y: int)
      ensures this.id == id && fatherId == NoFather && this.x == x && this.y == y
    {
      this.id, this.fatherId, this.x, this.y := id, NoFather, x, y;
    }

    /** setFatherId: only the father changes; the id never does. */
    method SetFatherId(f: int)
      modifies this`fatherId
      ensures fatherId == f
    {
      fatherId := f;
    }
  }
}
