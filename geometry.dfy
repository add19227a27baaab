/**
 * Plane vectors and centre-anchored boxes: the `Dimension` and `Rect`
 * classes of pong.js, as values.
 */
module Geometry {

  /** The two axes, as the strings "x" and "y" name them when a velocity is indexed. */
  datatype Axis = X | Y {
    function Other(): Axis {
      if this == X then Y else X
    }
  }

  /** A pair of coordinates: a position, a size (x is the width, y the height) or a velocity. */
  datatype Vec = Vec(x: real, y: real) {

    /** The coordinate along `axis`, as `vel[axis]` reads it. */
    function Get(axis: Axis): real {
      if axis == X then x else y
    }

    /** This vector with the coordinate along `axis` replaced, as `vel[axis] = value` writes it. */
    function With(axis: Axis, value: real): (v: Vec)
      ensures v.Get(axis) == value
      ensures v.Get(axis.Other()) == Get(axis.Other())
    {
      if axis == X then this.(x := value) else this.(y := value)
    }
  }

  /** The squared length of a vector: the radicand of the speed getter. */
  function SquaredLength(v: Vec): real
  {
    v.x * v.x + v.y * v.y
  }

  const Zero := Vec(0.0, 0.0)

  /** A square is never negative, and is positive unless its root is zero. */
  lemma SquareSign(a: real)
    ensures a * a >= 0.0
    ensures a != 0.0 ==> a * a > 0.0
  {
    if a > 0.0 {
      assert a * a > 0.0 * a;
    }
  }

  /** A sum of two squares is never negative, and is positive unless both roots are zero. */
  lemma NormSign(a: real, b: real)
    ensures a * a + b * b >= 0.0
    ensures a != 0.0 || b != 0.0 ==> a * a + b * b > 0.0
  {
    SquareSign(a);
    SquareSign(b);
    if a != 0.0 {
      assert a * a > 0.0;
    } else if b != 0.0 {
      assert b * b > 0.0;
    }
  }

  /** A box given by its centre `pos` and its `size`; its edges are derived, never stored. */
  datatype Rect = Rect(pos: Vec, size: Vec) {

    function Left(): real {
      pos.x - size.x / 2.0
    }

    /** The right edge: as far right of the centre as the left edge is left of it. */
    function Right(): (r: real)
      ensures r - Left() == size.x
      ensures r - pos.x == pos.x - Left()
    {
      pos.x + size.x / 2.0
    }

    function Top(): real {
      pos.y - size.y / 2.0
    }

    /** The bottom edge: as far below the centre as the top edge is above it. */
    function Bottom(): (b: real)
      ensures b - Top() == size.y
      ensures b - pos.y == pos.y - Top()
    {
      pos.y + size.y / 2.0
    }
  }
}
