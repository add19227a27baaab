/**
 * The ball and the paddles ("sticks") of pong.js as objects whose fields the
 * methods update in place. Each method's new state is stated exactly: as the
 * value a function of `Rules` computes from the old state, or, for the
 * mousemove write, as the old state with the one coordinate replaced.
 */
module Bodies {
  import opened Wrappers
  import opened Geometry
  import opened Speeds
  import opened Rules

  /** `Ball`: a centre-anchored box that remembers its previous centre and owns its velocity. */
  class Ball {
    var pos: Vec
    var prev: Vec
    const size: Vec
    const vel: Velocity

    /** The ball as a value. */
    function State(): BallState
      reads this, vel
    {
      BallState(pos, prev, size, vel.Value())
    }

    /** `new Ball`: a square of side `side` at `pos0`, moving by `speed` on both axes, previous centre at the origin. */
    constructor (pos0: Vec, side: real, speed: real)
      ensures State() == BallState(pos0, Zero, Vec(side, side), Vec(speed, speed))
      ensures fresh(vel)
    {
      pos := pos0;
      prev := Zero;
      size := Vec(side, side);
      vel := new Velocity(speed, speed);
    }

    /** `calcNewPos(dt)`. */
    method CalcNewPos(dt: real)
      modifies this
      ensures State() == Moved(old(State()), dt)
    {
      prev := pos;
      pos := Vec(pos.x + vel.x * dt, pos.y + vel.y * dt);
    }

    /** `reverse(axis, "dinamic")`: negate one coordinate of the velocity. */
    method Flip(axis: Axis)
      modifies vel
      ensures State() == old(State()).(vel := Flipped(old(vel.Value()), axis))
    {
      if axis == X {
        vel.x := -vel.x;
      } else {
        vel.y := -vel.y;
      }
    }

    /**
     * `reverse(axis, "random")`: remember the speed, shift the coordinate along
     * `axis` by `300 * (r - 0.5)`, then set the speed to 1.05 times the one
     * remembered. The setter divides by the shifted speed, hence the precondition.
     */
    method Randomize(axis: Axis, r: real, sqrt: real -> real)
      requires IsSqrt(sqrt) && Nudged(vel.Value(), axis, r) != Zero
      modifies vel
      ensures State() == old(State()).(vel := Randomized(old(vel.Value()), axis, r, sqrt))
    {
      ghost var v := vel.Value();
      var current := vel.Speed(sqrt);
      if axis == X {
        vel.x := vel.x + 300.0 * (r - 0.5);
      } else {
        vel.y := vel.y + 300.0 * (r - 0.5);
      }
      ghost var nudged := vel.Value();
      assert nudged == Nudged(v, axis, r);
      NormSign(vel.x, vel.y);
      ghost var nudgedSpeed := vel.Speed(sqrt);
      vel.SetSpeed(current * 1.05, sqrt);
      assert vel.Value() == Rescaled(nudged, current * 1.05, nudgedSpeed);
    }

    /** `reverseOnCollisionWithCanvasTopOrBottom(canvas)`, with the canvas height. */
    method ReverseOnCollisionWithCanvasTopOrBottom(height: real)
      modifies vel
      ensures State() == ReflectedOffTopOrBottom(old(State()), height)
    {
      if State().Box().Top() < 0.0 || State().Box().Bottom() > height {
        Flip(Y);
      }
    }

    /**
     * `reverseOnCollisionWithSticks(sticks)`: on a swept hit with `sticks[0]`
     * or `sticks[1]`, flip the horizontal velocity and randomize the vertical one.
     */
    method ReverseOnCollisionWithSticks(sticks: seq<Stick>, r: real, sqrt: real -> real)
      requires |sticks| >= 2 && IsSqrt(sqrt)
      requires StickCollision(State(), sticks[0].Box(), sticks[1].Box()) ==> Nudged(Flipped(vel.Value(), X), Y, r) != Zero
      modifies vel
      ensures State() == DeflectedOffSticks(old(State()), sticks[0].Box(), sticks[1].Box(), r, sqrt)
    {
      if StickCollision(State(), sticks[0].Box(), sticks[1].Box()) {
        Flip(X);
        Randomize(Y, r, sqrt);
      }
    }
  }

  /** `Stick`: a centre-anchored paddle with an optional pursuit velocity and a score. */
  class Stick {
    var pos: Vec
    const size: Vec
    const vel: Option<Vec>
    var score: nat

    /** The paddle's box. */
    function Box(): Rect
      reads this
    {
      Rect(pos, size)
    }

    /** The paddle as a value. */
    function State(): StickState
      reads this
    {
      StickState(pos, size, vel, score)
    }

    /** `new Stick`: the paddle starts with no points. */
    constructor (pos0: Vec, size0: Vec, vel0: Option<Vec>)
      ensures State() == StickState(pos0, size0, vel0, 0)
    {
      pos, size, vel, score := pos0, size0, vel0, 0;
    }

    /**
     * `calcNewPos(canvasHeight, ball, dt)`: follow the ball vertically, no faster
     * than the pursuit speed. The canvas height is not used. Only a paddle with a
     * pursuit velocity can follow.
     */
    method CalcNewPos(canvasHeight: real, ball: Ball, dt: real)
      requires vel.Some?
      modifies this
      ensures State() == Pursued(old(State()), old(ball.vel.Value()), dt)
    {
      if Abs(ball.vel.y) < vel.value.y {
        pos := pos.(y := pos.y + ball.vel.y * dt);
      } else {
        var direction := if ball.vel.y > 0.0 then 1.0 else -1.0;
        pos := pos.(y := pos.y + direction * vel.value.y * dt);
      }
    }

    /** The `mousemove` handler: the paddle's centre goes to the pointer's height. */
    method MoveTo(y: real)
      modifies this
      ensures State() == old(State()).(pos := old(pos).(y := y))
    {
      pos := pos.(y := y);
    }
  }
}
