/**
 * The per-tick rules of the ball and the paddles ("sticks") of pong.js,
 * stated on values. The classes in bodies.dfy are proved to follow them.
 */
module Rules {
  import opened Wrappers
  import opened Geometry
  import opened Speeds

  /** The two sides of the field a ball can leave through (the strings "left" and "right"). */
  datatype Side = LeftSide | RightSide

  /** A ball: its box, the centre it had before the last move, and its velocity. */
  datatype BallState = BallState(pos: Vec, prev: Vec, size: Vec, vel: Vec) {

    /** The ball's box at its current centre; its edges are `left`, `right`, `top` and `bottom`. */
    function Box(): Rect {
      Rect(pos, size)
    }

    /** `prevLeft`: the left edge at the previous centre, half a width left of it as `left` is of `pos`. */
    function PrevLeft(): (l: real)
      ensures prev.x - l == pos.x - Box().Left()
    {
      prev.x - size.x / 2.0
    }

    /** `prevRight`: the right edge at the previous centre, half a width right of it as `right` is of `pos`. */
    function PrevRight(): (r: real)
      ensures r - prev.x == Box().Right() - pos.x
      ensures r - PrevLeft() == size.x
    {
      prev.x + size.x / 2.0
    }

    /** The goal test: the ball is past the left side of the field, or past its right side. */
    function CheckCollisionWithCanvasSide(width: real, side: Side): (out: bool)
      ensures out <==> (side == LeftSide && Box().Left() < 0.0) || (side == RightSide && Box().Right() > width)
    {
      match side
      case LeftSide => Box().Left() < 0.0
      case RightSide => Box().Right() > width
    }
  }

  /** `calcNewPos(dt)`: remember the centre, then move it by the velocity times `dt`. */
  function Moved(b: BallState, dt: real): (m: BallState)
    ensures m.prev == b.pos && m.size == b.size && m.vel == b.vel
    ensures m.pos.x - m.prev.x == b.vel.x * dt && m.pos.y - m.prev.y == b.vel.y * dt
    ensures b.vel == Zero ==> m.pos == b.pos
  {
    b.(prev := b.pos, pos := Vec(b.pos.x + b.vel.x * dt, b.pos.y + b.vel.y * dt))
  }

  /** `reverse(axis, "dinamic")`: the coordinate along `axis` changes sign. */
  function Flipped(v: Vec, axis: Axis): (w: Vec)
    ensures w.Get(axis) == -v.Get(axis)
    ensures w.Get(axis.Other()) == v.Get(axis.Other())
  {
    v.With(axis, -v.Get(axis))
  }

  /** A flip keeps the length, and flipping twice restores the velocity. */
  lemma {:induction false} FlipKeepsLength(v: Vec, axis: Axis)
    ensures SquaredLength(Flipped(v, axis)) == SquaredLength(v)
    ensures Flipped(Flipped(v, axis), axis) == v
  {
    if axis == X {
      assert Flipped(v, axis) == Vec(-v.x, v.y);
    } else {
      assert Flipped(v, axis) == Vec(v.x, -v.y);
    }
  }

  /** The random step of `reverse(axis, "random")`: a shift of `300 * (r - 0.5)` along `axis`. */
  function Nudged(v: Vec, axis: Axis, r: real): (w: Vec)
    ensures w.Get(axis.Other()) == v.Get(axis.Other())
    ensures 0.0 <= r < 1.0 ==> -150.0 <= w.Get(axis) - v.Get(axis) < 150.0
  {
    v.With(axis, v.Get(axis) + 300.0 * (r - 0.5))
  }

  /** The square of 1.05 times a length, in terms of the square of that length. */
  lemma GrownSquare(c: real, n: real)
    requires c * c == n
    ensures (c * 1.05) * (c * 1.05) == 1.1025 * n
  {
  }

  /**
   * `reverse(axis, "random")`: take the current speed, nudge the coordinate
   * along `axis` by a random amount, then set the speed to 1.05 times the
   * speed taken. The setter divides by the nudged speed, so the nudged
   * velocity must not be zero. The result points the way the nudged velocity
   * points, and for a moving ball it has the nudged velocity's signs.
   */
  function Randomized(v: Vec, axis: Axis, r: real, sqrt: real -> real): (w: Vec)
    requires IsSqrt(sqrt) && Nudged(v, axis, r) != Zero
    ensures var n := Nudged(v, axis, r); w.x * n.y == w.y * n.x
    ensures v != Zero ==> var n := Nudged(v, axis, r); Sign(w.x) == Sign(n.x) && Sign(w.y) == Sign(n.y)
  {
    var nudged := Nudged(v, axis, r);
    NormSign(v.x, v.y);
    NormSign(nudged.x, nudged.y);
    Rescaled(nudged, Magnitude(v, sqrt) * 1.05, Magnitude(nudged, sqrt))
  }

  /** The random step multiplies the squared speed by 1.05², whatever the nudge. */
  lemma {:induction false} RandomizedLength(v: Vec, axis: Axis, r: real, sqrt: real -> real)
    requires IsSqrt(sqrt) && Nudged(v, axis, r) != Zero
    ensures SquaredLength(Randomized(v, axis, r, sqrt)) == 1.1025 * SquaredLength(v)
  {
    var nudged := Nudged(v, axis, r);
    NormSign(nudged.x, nudged.y);
    var current := Magnitude(v, sqrt);
    var nudgedSpeed := Magnitude(nudged, sqrt);
    var w := Rescaled(nudged, current * 1.05, nudgedSpeed);
    assert Randomized(v, axis, r, sqrt) == w;
    RescaledLength(nudged, current * 1.05, nudgedSpeed);
    GrownSquare(current, SquaredLength(v));
  }

  /** Reflection off the top or bottom border: the vertical velocity changes sign when the ball is past either. */
  function ReflectedOffTopOrBottom(b: BallState, height: real): (c: BallState)
    ensures c.pos == b.pos && c.prev == b.prev && c.size == b.size && c.vel.x == b.vel.x
    ensures b.Box().Top() < 0.0 || b.Box().Bottom() > height ==> c.vel.y == -b.vel.y
    ensures !(b.Box().Top() < 0.0 || b.Box().Bottom() > height) ==> c == b
  {
    if b.Box().Top() < 0.0 || b.Box().Bottom() > height then b.(vel := Flipped(b.vel, Y)) else b
  }

  /**
   * The swept test against the left stick: the ball's left edge was at or right
   * of the stick's right edge before the move and is left of it after, and the
   * ball overlaps the stick vertically now. Such a ball has moved left.
   */
  predicate LeftStickCollision(b: BallState, stick: Rect)
    ensures LeftStickCollision(b, stick) ==> b.pos.x < b.prev.x
  {
    && b.PrevLeft() >= stick.Right()
    && b.Box().Left() < stick.Right()
    && b.Box().Top() < stick.Bottom()
    && b.Box().Bottom() > stick.Top()
  }

  /** The swept test against the right stick, mirrored; such a ball has moved right. */
  predicate RightStickCollision(b: BallState, stick: Rect)
    ensures RightStickCollision(b, stick) ==> b.pos.x > b.prev.x
  {
    && b.PrevRight() <= stick.Left()
    && b.Box().Right() > stick.Left()
    && b.Box().Top() < stick.Bottom()
    && b.Box().Bottom() > stick.Top()
  }

  predicate StickCollision(b: BallState, left: Rect, right: Rect) {
    LeftStickCollision(b, left) || RightStickCollision(b, right)
  }

  /** A ball moves one way or the other, so one tick cannot take it through both sticks' edges. */
  lemma {:induction false} NoDoubleHit(b: BallState, left: Rect, right: Rect)
    ensures !(LeftStickCollision(b, left) && RightStickCollision(b, right))
  {
    if LeftStickCollision(b, left) {
      assert b.pos.x < b.prev.x;
    }
  }

  /**
   * The paddle response to a hit: `reverse("x", "dinamic")`, then
   * `reverse("y", "random")`. The result points the way the flipped, nudged
   * velocity points, and a ball that moved sideways is sent back.
   */
  function Bounced(v: Vec, r: real, sqrt: real -> real): (w: Vec)
    requires IsSqrt(sqrt) && Nudged(Flipped(v, X), Y, r) != Zero
    ensures var n := Nudged(Flipped(v, X), Y, r); w.x * n.y == w.y * n.x
    ensures v != Zero ==> Sign(w.y) == Sign(Nudged(Flipped(v, X), Y, r).y)
    ensures v.x != 0.0 ==> Sign(w.x) == -Sign(v.x)
  {
    var flipped := Flipped(v, X);
    assert flipped.x == -v.x && flipped.y == v.y;
    assert Nudged(flipped, Y, r).x == flipped.x;
    Randomized(flipped, Y, r, sqrt)
  }

  /** A paddle hit multiplies the squared speed by 1.05². */
  lemma {:induction false} BouncedLength(v: Vec, r: real, sqrt: real -> real)
    requires IsSqrt(sqrt) && Nudged(Flipped(v, X), Y, r) != Zero
    ensures SquaredLength(Bounced(v, r, sqrt)) == 1.1025 * SquaredLength(v)
  {
    assert Bounced(v, r, sqrt) == Randomized(Flipped(v, X), Y, r, sqrt);
    RandomizedLength(Flipped(v, X), Y, r, sqrt);
    FlipKeepsLength(v, X);
  }

  /** The root of 1.05² times a square is 1.05 times the root. */
  lemma GrownRoot(after: real, before: real, n: real)
    requires after >= 0.0 && before >= 0.0 && before * before == n && after * after == 1.1025 * n
    ensures after == 1.05 * before
  {
    GrownSquare(before, n);
    RootUnique(after, before * 1.05);
  }

  /** A vector whose squared length is 1.05² times another's has 1.05 times its speed. */
  lemma {:induction false} GrownSpeed(w: Vec, v: Vec, sqrt: real -> real)
    requires IsSqrt(sqrt) && SquaredLength(w) == 1.1025 * SquaredLength(v)
    ensures Magnitude(w, sqrt) == 1.05 * Magnitude(v, sqrt)
  {
    GrownRoot(Magnitude(w, sqrt), Magnitude(v, sqrt), SquaredLength(v));
  }

  /** The speed getter after a paddle hit returns 1.05 times what it returned before. */
  lemma {:induction false} BouncedSpeed(v: Vec, r: real, sqrt: real -> real)
    requires IsSqrt(sqrt) && Nudged(Flipped(v, X), Y, r) != Zero
    ensures Magnitude(Bounced(v, r, sqrt), sqrt) == 1.05 * Magnitude(v, sqrt)
  {
    BouncedLength(v, r, sqrt);
    GrownSpeed(Bounced(v, r, sqrt), v, sqrt);
  }

  /**
   * `reverseOnCollisionWithSticks`: on a hit with either stick the velocity is
   * `Bounced`; otherwise nothing changes. The speed setter divides by the
   * nudged speed, hence the precondition.
   */
  function DeflectedOffSticks(b: BallState, left: Rect, right: Rect, r: real, sqrt: real -> real): (d: BallState)
    requires IsSqrt(sqrt)
    requires StickCollision(b, left, right) ==> Nudged(Flipped(b.vel, X), Y, r) != Zero
    ensures d.pos == b.pos && d.prev == b.prev && d.size == b.size
    ensures !StickCollision(b, left, right) ==> d == b
    ensures StickCollision(b, left, right) ==> d.vel == Bounced(b.vel, r, sqrt)
    ensures StickCollision(b, left, right) && b.vel.x != 0.0 ==> Sign(d.vel.x) == -Sign(b.vel.x)
  {
    if StickCollision(b, left, right) then b.(vel := Bounced(b.vel, r, sqrt)) else b
  }

  /**
   * A ball that hits a stick in this tick moved sideways, so it has a horizontal
   * velocity, and the velocity the speed setter divides by (flipped, then
   * nudged vertically) is not zero.
   */
  lemma {:induction false} StruckBallCanBounce(b: BallState, dt: real, height: real, left: Rect, right: Rect, r: real)
    ensures var c := ReflectedOffTopOrBottom(Moved(b, dt), height);
      StickCollision(c, left, right) ==> c.vel.x != 0.0 && Nudged(Flipped(c.vel, X), Y, r) != Zero
  {
    var c := ReflectedOffTopOrBottom(Moved(b, dt), height);
    if StickCollision(c, left, right) {
      assert c.pos.x - c.prev.x == b.vel.x * dt;
      assert c.vel.x == b.vel.x;
      assert Flipped(c.vel, X).x == -c.vel.x;
    }
  }

  /** A paddle: its box, its pursuit velocity (absent for the human paddle) and its score. */
  datatype StickState = StickState(pos: Vec, size: Vec, vel: Option<Vec>, score: nat) {
    function Box(): Rect {
      Rect(pos, size)
    }
  }

  function Abs(a: real): real {
    if a < 0.0 then -a else a
  }

  /** For a non-negative `t`, |a * t| is |a| * t, so it is at most c * t when |a| is at most c. */
  lemma ScaledBound(a: real, c: real, t: real)
    ensures 0.0 <= t ==> Abs(a * t) == Abs(a) * t
    ensures 0.0 <= t && Abs(a) <= c ==> Abs(a * t) <= c * t
  {
    if 0.0 <= t {
      if a >= 0.0 {
        assert a * t >= 0.0 * t;
      } else {
        assert (-a) * t >= 0.0 * t;
        assert Abs(a * t) == (-a) * t;
      }
      if Abs(a) <= c {
        assert Abs(a) * t <= c * t;
      }
    }
  }

  /**
   * The vertical displacement `Stick.calcNewPos` gives the pursuing paddle in one
   * tick: the ball's own vertical displacement while the ball is slower than the
   * paddle's pursuit speed, otherwise the pursuit speed in the ball's direction.
   */
  function PursuitStep(ballVy: real, stickVy: real, dt: real): (d: real)
    ensures 0.0 <= dt && 0.0 <= stickVy ==> Abs(d) <= stickVy * dt
    ensures Abs(ballVy) < stickVy ==> d == ballVy * dt
    ensures stickVy <= Abs(ballVy) && 0.0 <= dt && 0.0 <= stickVy ==> Abs(d) == stickVy * dt
    ensures stickVy <= Abs(ballVy) && 0.0 < dt && 0.0 < stickVy ==> Sign(d) == (if ballVy > 0.0 then 1 else -1)
  {
    if Abs(ballVy) < stickVy then
      ScaledBound(ballVy, stickVy, dt);
      ballVy * dt
    else
      var direction := if ballVy > 0.0 then 1.0 else -1.0;
      assert 0.0 <= stickVy ==> Abs(direction * stickVy) == stickVy;
      ScaledBound(direction * stickVy, stickVy, dt);
      ScaleKeepsSign(direction, stickVy * dt);
      assert direction * stickVy * dt == direction * (stickVy * dt);
      direction * stickVy * dt
  }

  /** `Stick.calcNewPos` for the pursuing paddle: only the vertical position changes, by `PursuitStep`. */
  function Pursued(st: StickState, ballVel: Vec, dt: real): (p: StickState)
    requires st.vel.Some?
    ensures p.size == st.size && p.vel == st.vel && p.score == st.score && p.pos.x == st.pos.x
    ensures p.pos.y - st.pos.y == PursuitStep(ballVel.y, st.vel.value.y, dt)
  {
    st.(pos := st.pos.(y := st.pos.y + PursuitStep(ballVel.y, st.vel.value.y, dt)))
  }

  /** A ball at rest vertically leaves a pursuing paddle where it is, when its pursuit speed is positive. */
  lemma {:induction false} PursuitOfLevelBall(st: StickState, ballVel: Vec, dt: real)
    requires st.vel.Some? && st.vel.value.y > 0.0 && ballVel.y == 0.0
    ensures Pursued(st, ballVel, dt) == st
  {
    assert Abs(ballVel.y) < st.vel.value.y;
    assert PursuitStep(ballVel.y, st.vel.value.y, dt) == 0.0;
  }

  /** Reflecting off the top or bottom keeps the speed. */
  lemma {:induction false} ReflectionKeepsSpeed(b: BallState, height: real)
    ensures var c := ReflectedOffTopOrBottom(b, height);
      SquaredLength(c.vel) == SquaredLength(b.vel)
  {
    var c := ReflectedOffTopOrBottom(b, height);
    if b.Box().Top() < 0.0 || b.Box().Bottom() > height {
      assert c.vel == Flipped(b.vel, Y);
      FlipKeepsLength(b.vel, Y);
    }
  }

  /** The border test does not look at the velocity, so reflecting twice in the same place restores it. */
  lemma {:induction false} ReflectionTwiceRestores(b: BallState, height: real)
    ensures ReflectedOffTopOrBottom(ReflectedOffTopOrBottom(b, height), height) == b
  {
    var c := ReflectedOffTopOrBottom(b, height);
    assert c.Box() == b.Box();
  }

  /** A ball past the top that is still rising is sent downwards, its horizontal velocity kept. */
  lemma {:induction false} ReflectionSendsBallBack(b: BallState, height: real)
    requires b.Box().Top() < 0.0 && b.vel.y < 0.0
    ensures ReflectedOffTopOrBottom(b, height).vel.y > 0.0
    ensures ReflectedOffTopOrBottom(b, height).vel.x == b.vel.x
  {
  }

  /** A ball no wider than the field cannot be past both sides at once. */
  lemma {:induction false} GoalSidesExclusive(b: BallState, width: real)
    requires b.size.x <= width && b.CheckCollisionWithCanvasSide(width, LeftSide)
    ensures !b.CheckCollisionWithCanvasSide(width, RightSide)
  {
    assert b.Box().Right() - b.Box().Left() == b.size.x;
  }
}
