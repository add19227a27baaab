/**
 * The `Velocity` class of pong.js: a vector whose `speed` getter takes the
 * Euclidean length and whose `speed` setter rescales the vector to a new length.
 *
 * `Math.sqrt` is a host function: every member that takes a square root is
 * handed one, `sqrt`, of which only `IsSqrt` is known.
 */
module Speeds {
  import opened Geometry

  /** -1, 0 or 1, as `a` is negative, zero or positive. */
  function Sign(a: real): int {
    if a > 0.0 then 1 else if a < 0.0 then -1 else 0
  }

  /** `s` is the non-negative square root of `v`; it is positive when `v` is. */
  predicate IsRoot(s: real, v: real) {
    s >= 0.0 && s * s == v && (v > 0.0 ==> s > 0.0)
  }

  /** `sqrt` returns the non-negative square root of every non-negative real, as `Math.sqrt` does. */
  ghost predicate IsSqrt(sqrt: real -> real) {
    forall v :: v >= 0.0 ==> IsRoot(sqrt(v), v)
  }

  /** The Euclidean length of `v`, as the `speed` getter computes it. */
  function Magnitude(v: Vec, sqrt: real -> real): (s: real)
    requires IsSqrt(sqrt)
    ensures IsRoot(s, v.x * v.x + v.y * v.y)
  {
    sqrt(v.x * v.x + v.y * v.y)
  }

  /** Multiplying by a positive factor keeps the sign. */
  lemma ScaleKeepsSign(a: real, f: real)
    ensures f > 0.0 ==> Sign(a * f) == Sign(a)
  {
    if f <= 0.0 {
    } else if a > 0.0 {
      assert a * f > 0.0 * f;
    } else if a < 0.0 {
      assert (-a) * f > 0.0 * f;
    }
  }

  /** Scaling both coordinates by `value / s`, where `s` is the current length, makes the length `value`. */
  lemma ScaledSquares(x: real, y: real, value: real, s: real)
    requires s > 0.0 && s * s == x * x + y * y
    ensures (x * (value / s)) * (x * (value / s)) + (y * (value / s)) * (y * (value / s)) == value * value
  {
    var f := value / s;
    assert f * s == value;
    calc {
      (x * f) * (x * f) + (y * f) * (y * f);
      f * f * (x * x + y * y);
      f * f * (s * s);
      (f * s) * (f * s);
    }
  }

  /**
   * The vector the `speed` setter leaves when asked for length `value`:
   * `v` scaled by `value / s`, where `s` is its current length. The
   * direction is kept, and so are the signs when `value` is positive.
   */
  function Rescaled(v: Vec, value: real, s: real): (w: Vec)
    requires s > 0.0
    ensures w.x * v.y == w.y * v.x
    ensures value > 0.0 ==> Sign(w.x) == Sign(v.x) && Sign(w.y) == Sign(v.y)
  {
    var factor := value / s;
    ScaleKeepsSign(v.x, factor);
    ScaleKeepsSign(v.y, factor);
    Vec(v.x * factor, v.y * factor)
  }

  /** Rescaling to `value` by the true current length makes the length `value`. */
  lemma {:induction false} RescaledLength(v: Vec, value: real, s: real)
    requires s > 0.0 && IsRoot(s, v.x * v.x + v.y * v.y)
    ensures SquaredLength(Rescaled(v, value, s)) == value * value
  {
    ScaledSquares(v.x, v.y, value, s);
  }

  /** Squaring is strictly increasing on the non-negative reals. */
  lemma SquareIncreasing(a: real, b: real)
    requires 0.0 <= a < b
    ensures a * a < b * b
  {
    var d := b - a;
    assert b * b == a * a + d * (a + b);
    assert d * (a + b) > 0.0;
  }

  /** Two non-negative reals with the same square are equal. */
  lemma RootUnique(a: real, b: real)
    requires a >= 0.0 && b >= 0.0 && a * a == b * b
    ensures a == b
  {
    if a < b {
      SquareIncreasing(a, b);
    } else if b < a {
      SquareIncreasing(b, a);
    }
  }

  /** The setter's promise: after rescaling to a non-negative `value`, the getter returns `value`. */
  lemma {:induction false} RescaledMagnitude(v: Vec, value: real, sqrt: real -> real)
    requires IsSqrt(sqrt) && Magnitude(v, sqrt) > 0.0 && value >= 0.0
    ensures Magnitude(Rescaled(v, value, Magnitude(v, sqrt)), sqrt) == value
  {
    var w := Rescaled(v, value, Magnitude(v, sqrt));
    RescaledLength(v, value, Magnitude(v, sqrt));
    RootUnique(Magnitude(w, sqrt), value);
  }

  /** A velocity, updated in place by its owner and by its `speed` setter. */
  class Velocity {
    var x: real
    var y: real

    constructor (x0: real, y0: real)
      ensures Value() == Vec(x0, y0)
    {
      x, y := x0, y0;
    }

    /** The current velocity as a value. */
    function Value(): Vec
      reads this
    {
      Vec(x, y)
    }

    /** The `speed` getter: the Euclidean length of the velocity. */
    function Speed(sqrt: real -> real): (s: real)
      reads this
      requires IsSqrt(sqrt)
      ensures IsRoot(s, x * x + y * y)
    {
      Magnitude(Value(), sqrt)
    }

    /**
     * The `speed` setter: scales both coordinates by `value / speed`.
     * The current speed must be positive, since the setter divides by it.
     */
    method SetSpeed(value: real, sqrt: real -> real)
      requires IsSqrt(sqrt) && Speed(sqrt) > 0.0
      modifies this
      ensures Value() == Rescaled(old(Value()), value, old(Speed(sqrt)))
    {
      var factor := value / Speed(sqrt);
      x := x * factor;
      y := y * factor;
    }
  }
}
