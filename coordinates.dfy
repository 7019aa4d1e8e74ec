/**
 * The mutable point buffer that the pipeline works on (proj4j's ProjCoordinate).
 * The numeric meaning of x and y changes from stage to stage; the model keeps them abstract.
 */
module Coordinates {

  /** The z ordinate. `NoHeight` stands for the NaN sentinel that means "no height". */
  datatype Height = NoHeight | Height(h: real)

  /** The value held by a coordinate buffer at one moment. */
  datatype Coord = Coord(x: real, y: real, z: Height)

  class ProjCoordinate {
    var x: real
    var y: real
    var z: Height

    constructor (c: Coord)
      ensures Value() == c
    {
      x, y, z := c.x, c.y, c.z;
    }

    function Value(): Coord
      reads this
    {
      Coord(x, y, z)
    }

    /** Copies all three ordinates of `src` into this buffer; `src` may be this buffer itself. */
    method SetValue(src: ProjCoordinate)
      modifies this
      ensures Value() == old(src.Value())
    {
      x, y, z := src.x, src.y, src.z;
    }

    /** Forgets the height, keeping x and y. */
    method ClearZ()
      modifies this
      ensures Value() == old(Value()).(z := NoHeight)
    {
      z := NoHeight;
    }

    /** Overwrites the buffer with the value a collaborator computed. */
    method Store(c: Coord)
      modifies this
      ensures Value() == c
    {
      x, y, z := c.x, c.y, c.z;
    }
  }
}
