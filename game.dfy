/**
 * The `Pong` game of pong.js: one ball, the human paddle `sticks[0]` on the
 * left and the pursuing paddle `sticks[1]` on the right. `Tick` and `Served`
 * state `update(dt)` and `start()` on values; the `Pong` class is proved to
 * follow them.
 */
module Game {
  import opened Wrappers
  import opened Geometry
  import opened Speeds
  import opened Rules
  import opened Bodies

  /** Everything `update` reads and writes: the ball and the two paddles. */
  datatype World = World(ball: BallState, left: StickState, right: StickState)

  /** `resetBall`: a ball at rest in the centre, its side a sixtieth of the field width. */
  function RoundBall(width: real, height: real): BallState {
    BallState(Vec(width / 2.0, height / 2.0), Zero, Vec(width / 60.0, width / 60.0), Zero)
  }

  /** Where `resetSticks` puts the human paddle. */
  function LeftHome(width: real, height: real): Vec {
    Vec(width / 15.0, height / 2.0)
  }

  /** Where `resetSticks` puts the pursuing paddle: as far from the right side as the human paddle is from the left. */
  function RightHome(width: real, height: real): Vec {
    Vec(width - width / 15.0, height / 2.0)
  }

  /** The size of both paddles. */
  function StickSize(width: real, height: real): Vec {
    Vec(width / 30.0, height / 2.85)
  }

  /** The pursuing paddle's velocity: vertical only, proportional to the hardness. */
  function PursuitVelocity(width: real, hardness: real): (v: Vec)
    ensures width > 0.0 && hardness > 0.0 ==> v.x == 0.0 && v.y > 0.0
  {
    var perUnit := width / 600.0;
    assert width > 0.0 && hardness > 0.0 ==> perUnit * hardness > 0.0 * hardness;
    Vec(0.0, perUnit * hardness * 100.0)
  }

  /** The world the `Pong` constructor builds: `resetBall`, then `resetSticks("hard")`. */
  function Initial(width: real, height: real, hardness: real): World {
    World(RoundBall(width, height),
          StickState(LeftHome(width, height), StickSize(width, height), None, 0),
          StickState(RightHome(width, height), StickSize(width, height), Some(PursuitVelocity(width, hardness)), 0))
  }

  /** After a goal: `resetBall`, then `resetSticks("soft")`, which moves the paddles home and keeps the rest. */
  function NewRound(w: World, width: real, height: real): (n: World)
    ensures n.ball.vel == Zero && n.ball.pos == Vec(width / 2.0, height / 2.0)
    ensures n.left.score == w.left.score && n.right.score == w.right.score
    ensures n.left.size == w.left.size && n.left.vel == w.left.vel
    ensures n.right.size == w.right.size && n.right.vel == w.right.vel
  {
    World(RoundBall(width, height),
          w.left.(pos := LeftHome(width, height)),
          w.right.(pos := RightHome(width, height)))
  }

  /** The ball's half of `update`: move, reflect off the top or bottom, then off the paddles. */
  function Flight(b: BallState, left: Rect, right: Rect, height: real, dt: real, r: real, sqrt: real -> real): (f: BallState)
    requires IsSqrt(sqrt)
    ensures f.prev == b.pos && f.size == b.size
  {
    var c := ReflectedOffTopOrBottom(Moved(b, dt), height);
    StruckBallCanBounce(b, dt, height, left, right, r);
    DeflectedOffSticks(c, left, right, r, sqrt)
  }

  /** The world after the goal test of `update`: a left exit scores for `sticks[1]`, else a right exit for `sticks[0]`. */
  function Scored(w: World, flight: BallState, width: real, height: real): World {
    if flight.CheckCollisionWithCanvasSide(width, LeftSide) then
      NewRound(w.(right := w.right.(score := w.right.score + 1)), width, height)
    else if flight.CheckCollisionWithCanvasSide(width, RightSide) then
      NewRound(w.(left := w.left.(score := w.left.score + 1)), width, height)
    else
      w.(ball := flight)
  }

  /** `update(dt)`: the ball's flight, the goal test, then the pursuit step against the ball as it now is. */
  function Tick(w: World, width: real, height: real, dt: real, r: real, sqrt: real -> real): (n: World)
    requires IsSqrt(sqrt) && w.right.vel.Some?
    ensures n.left.size == w.left.size && n.left.vel == w.left.vel
    ensures n.right.size == w.right.size && n.right.vel == w.right.vel
    ensures n.left.score >= w.left.score && n.right.score >= w.right.score
  {
    var flight := Flight(w.ball, w.left.Box(), w.right.Box(), height, dt, r, sqrt);
    var scored := Scored(w, flight, width, height);
    scored.(right := Pursued(scored.right, scored.ball.vel, dt))
  }

  /** The serve direction of `start`: full speed sideways, to the right when `r1 > 0.5`, and up to full speed vertically. */
  function Aimed(speed: real, r1: real, r2: real): Vec {
    Vec(speed * (if r1 > 0.5 then 1.0 else -1.0), speed * (r2 * 2.0 - 1.0))
  }

  /** `start()`: a ball at rest is aimed, then set to the start speed; a moving ball is left alone. */
  function Served(b: BallState, speed: real, r1: real, r2: real, sqrt: real -> real): (c: BallState)
    requires IsSqrt(sqrt) && speed > 0.0
    ensures c.pos == b.pos && c.prev == b.prev && c.size == b.size
  {
    if Magnitude(b.vel, sqrt) == 0.0 then
      var aimed := Aimed(speed, r1, r2);
      NormSign(aimed.x, aimed.y);
      b.(vel := Rescaled(aimed, speed, Magnitude(aimed, sqrt)))
    else
      b
  }

  // ---------------------------------------------------------------------
  // Properties of update
  // ---------------------------------------------------------------------

  /** At most one score rises in a tick, by exactly one, and no score falls. */
  lemma {:induction false} TickScoresAtMostOne(w: World, width: real, height: real, dt: real, r: real, sqrt: real -> real)
    requires IsSqrt(sqrt) && w.right.vel.Some?
    ensures var n := Tick(w, width, height, dt, r, sqrt);
      || (n.left.score == w.left.score && n.right.score == w.right.score)
      || (n.left.score == w.left.score + 1 && n.right.score == w.right.score)
      || (n.left.score == w.left.score && n.right.score == w.right.score + 1)
  {
  }

  /** The pursuing paddle scores exactly when the ball leaves through the left side. */
  lemma {:induction false} LeftExitScoresForRight(w: World, width: real, height: real, dt: real, r: real, sqrt: real -> real)
    requires IsSqrt(sqrt) && w.right.vel.Some?
    ensures var flight := Flight(w.ball, w.left.Box(), w.right.Box(), height, dt, r, sqrt);
      var n := Tick(w, width, height, dt, r, sqrt);
      && (n.right.score == w.right.score + 1 <==> flight.CheckCollisionWithCanvasSide(width, LeftSide))
      && (n.left.score == w.left.score + 1 <==>
           !flight.CheckCollisionWithCanvasSide(width, LeftSide) && flight.CheckCollisionWithCanvasSide(width, RightSide))
  {
  }

  /**
   * After a goal the ball is back in the centre at rest and the paddles are at
   * home; the pursuing paddle stays there in the same tick when its pursuit
   * speed is positive, since the ball it follows has no vertical velocity.
   */
  lemma {:induction false} GoalResetsRound(w: World, width: real, height: real, dt: real, r: real, sqrt: real -> real)
    requires IsSqrt(sqrt) && w.right.vel.Some?
    requires var flight := Flight(w.ball, w.left.Box(), w.right.Box(), height, dt, r, sqrt);
      flight.CheckCollisionWithCanvasSide(width, LeftSide) || flight.CheckCollisionWithCanvasSide(width, RightSide)
    ensures var n := Tick(w, width, height, dt, r, sqrt);
      && n.ball == RoundBall(width, height)
      && n.left.pos == LeftHome(width, height)
      && n.right.pos.x == RightHome(width, height).x
      && (w.right.vel.value.y > 0.0 ==> n.right.pos == RightHome(width, height))
  {
    var flight := Flight(w.ball, w.left.Box(), w.right.Box(), height, dt, r, sqrt);
    var scored := Scored(w, flight, width, height);
    assert scored.ball == RoundBall(width, height);
    assert scored.right.pos == RightHome(width, height);
    if w.right.vel.value.y > 0.0 {
      PursuitOfLevelBall(scored.right, scored.ball.vel, dt);
    }
  }

  /** Without a goal the ball keeps its flight, the human paddle is untouched and only the pursuing paddle moves. */
  lemma {:induction false} PlayContinues(w: World, width: real, height: real, dt: real, r: real, sqrt: real -> real)
    requires IsSqrt(sqrt) && w.right.vel.Some?
    requires var flight := Flight(w.ball, w.left.Box(), w.right.Box(), height, dt, r, sqrt);
      !flight.CheckCollisionWithCanvasSide(width, LeftSide) && !flight.CheckCollisionWithCanvasSide(width, RightSide)
    ensures var flight := Flight(w.ball, w.left.Box(), w.right.Box(), height, dt, r, sqrt);
      var n := Tick(w, width, height, dt, r, sqrt);
      n == World(flight, w.left, Pursued(w.right, flight.vel, dt))
  {
  }

  /**
   * A worked goal on an 800 by 400 field: a level ball at x = 10, 20 wide,
   * moving left at 50 per second, is past the left side after one second, so
   * the pursuing paddle scores and the ball is back in the centre at rest.
   */
  lemma {:induction false} LeftGoalExample(sqrt: real -> real, r: real, left: StickState, right: StickState)
    requires IsSqrt(sqrt) && right.vel.Some?
    requires left.pos == LeftHome(800.0, 400.0) && left.size == StickSize(800.0, 400.0)
    ensures var w := World(BallState(Vec(10.0, 200.0), Zero, Vec(20.0, 20.0), Vec(-50.0, 0.0)), left, right);
      var n := Tick(w, 800.0, 400.0, 1.0, r, sqrt);
      && n.right.score == right.score + 1
      && n.left.score == left.score
      && n.ball.pos == Vec(400.0, 200.0) && n.ball.vel == Zero
  {
    var b := BallState(Vec(10.0, 200.0), Zero, Vec(20.0, 20.0), Vec(-50.0, 0.0));
    var c := ReflectedOffTopOrBottom(Moved(b, 1.0), 400.0);
    assert c.pos == Vec(-40.0, 200.0) && c.prev == Vec(10.0, 200.0);
    assert !LeftStickCollision(c, left.Box());
    assert !RightStickCollision(c, right.Box());
  }

  // ---------------------------------------------------------------------
  // Properties of start
  // ---------------------------------------------------------------------

  /** Serving a moving ball changes nothing. */
  lemma {:induction false} ServeIgnoresMovingBall(b: BallState, speed: real, r1: real, r2: real, sqrt: real -> real)
    requires IsSqrt(sqrt) && speed > 0.0 && b.vel != Zero
    ensures Served(b, speed, r1, r2, sqrt) == b
  {
    NormSign(b.vel.x, b.vel.y);
  }

  /**
   * Serving a ball at rest gives it exactly the start speed whatever the random
   * values, sends it right exactly when `r1 > 0.5`, and moves nothing else.
   */
  lemma {:induction false} ServeFromRest(b: BallState, speed: real, r1: real, r2: real, sqrt: real -> real)
    requires IsSqrt(sqrt) && speed > 0.0 && Magnitude(b.vel, sqrt) == 0.0
    ensures var c := Served(b, speed, r1, r2, sqrt);
      && c.pos == b.pos && c.prev == b.prev && c.size == b.size
      && SquaredLength(c.vel) == speed * speed
      && Magnitude(c.vel, sqrt) == speed
      && (c.vel.x > 0.0 <==> r1 > 0.5)
      && c.vel.x != 0.0
      && c.vel.x * Aimed(speed, r1, r2).y == c.vel.y * Aimed(speed, r1, r2).x
      && Sign(c.vel.y) == Sign(Aimed(speed, r1, r2).y)
  {
    var aimed := Aimed(speed, r1, r2);
    NormSign(aimed.x, aimed.y);
    RescaledLength(aimed, speed, Magnitude(aimed, sqrt));
    RescaledMagnitude(aimed, speed, sqrt);
  }

  /** A second serve is a no-op: the first leaves the ball moving. */
  lemma {:induction false} ServeIdempotent(b: BallState, speed: real, r1: real, r2: real, sqrt: real -> real)
    requires IsSqrt(sqrt) && speed > 0.0
    ensures var c := Served(b, speed, r1, r2, sqrt);
      Served(c, speed, r1, r2, sqrt) == c
  {
    var c := Served(b, speed, r1, r2, sqrt);
    if Magnitude(b.vel, sqrt) == 0.0 {
      ServeFromRest(b, speed, r1, r2, sqrt);
      ServeIgnoresMovingBall(c, speed, r1, r2, sqrt);
    } else {
      assert c == b;
    }
  }

  // ---------------------------------------------------------------------
  // The game object
  // ---------------------------------------------------------------------

  /** `resetBall`'s allocation: a fresh ball at rest in the centre. */
  method NewBall(width: real, height: real) returns (b: Ball)
    ensures fresh(b) && fresh(b.vel)
    ensures b.State() == RoundBall(width, height)
  {
    b := new Ball(Vec(width / 2.0, height / 2.0), width / 60.0, 0.0);
  }

  /** `resetSticks("hard")`'s allocation: two fresh paddles at home with no points; only the right one pursues. */
  method NewSticks(width: real, height: real, hardness: real) returns (sticks: seq<Stick>)
    ensures |sticks| == 2 && fresh(sticks[0]) && fresh(sticks[1]) && sticks[0] != sticks[1]
    ensures sticks[0].State() == Initial(width, height, hardness).left
    ensures sticks[1].State() == Initial(width, height, hardness).right
  {
    var human := new Stick(LeftHome(width, height), StickSize(width, height), None);
    var pursuer := new Stick(RightHome(width, height), StickSize(width, height), Some(PursuitVelocity(width, hardness)));
    sticks := [human, pursuer];
  }

  /** The game: a field of `width` by `height`, a hardness, and the ratio of the width to the start speed. */
  class Pong {
    const width: real
    const height: real
    const hardness: real
    const twimts: real
    var ball: Ball
    var sticks: seq<Stick>

    /** The shape `update` relies on: a positive field, two distinct paddles, the second one pursuing. */
    predicate Valid()
      reads this
    {
      && width > 0.0 && height > 0.0 && hardness > 0.0 && twimts > 0.0
      && |sticks| == 2 && sticks[0] != sticks[1] && sticks[1].vel.Some?
    }

    /** The game as a value. */
    function Snapshot(): World
      reads this, ball, ball.vel, sticks
      requires |sticks| == 2
    {
      World(ball.State(), sticks[0].State(), sticks[1].State())
    }

    /** The speed `start` serves at. */
    function StartSpeed(): (s: real)
      reads this
      requires twimts > 0.0
      ensures width > 0.0 ==> s > 0.0
    {
      width / twimts
    }

    /**
     * `new Pong`: `resetBall`, then `resetSticks("hard")`, on a canvas of the
     * given size. The ball field needs a value before the object exists, so the
     * constructor allocates the ball with `NewBall`, as `ResetBall` does.
     */
    constructor (width0: real, height0: real, hardness0: real, twimts0: real)
      requires width0 > 0.0 && height0 > 0.0 && hardness0 > 0.0 && twimts0 > 0.0
      ensures Valid()
      ensures Snapshot() == Initial(width0, height0, hardness0)
    {
      var b := NewBall(width0, height0);
      width, height, hardness, twimts := width0, height0, hardness0, twimts0;
      ball, sticks := b, [];
      new;
      ResetSticksHard();
    }

    /** `resetBall`: replace the ball by a fresh one at rest in the centre. */
    method ResetBall()
      modifies this
      ensures ball.State() == RoundBall(width, height) && fresh(ball) && fresh(ball.vel)
      ensures sticks == old(sticks)
    {
      ball := NewBall(width, height);
    }

    /** `resetSticks("hard")`: replace both paddles by fresh ones. */
    method ResetSticksHard()
      modifies this
      ensures width > 0.0 && height > 0.0 && hardness > 0.0 && twimts > 0.0 ==> Valid()
      ensures |sticks| == 2 && fresh(sticks[0]) && fresh(sticks[1]) && ball == old(ball)
      ensures sticks[0].State() == Initial(width, height, hardness).left
      ensures sticks[1].State() == Initial(width, height, hardness).right
    {
      sticks := NewSticks(width, height, hardness);
    }

    /** `resetSticks("soft")`: move both paddles home, keeping their scores and velocities. */
    method ResetSticksSoft()
      requires Valid()
      modifies sticks[0], sticks[1]
      ensures sticks[0].State() == old(sticks[0].State()).(pos := LeftHome(width, height))
      ensures sticks[1].State() == old(sticks[1].State()).(pos := RightHome(width, height))
    {
      sticks[0].pos := sticks[0].pos.(x := width / 15.0);
      sticks[0].pos := sticks[0].pos.(y := height / 2.0);
      sticks[1].pos := sticks[1].pos.(x := width - width / 15.0);
      sticks[1].pos := sticks[1].pos.(y := height / 2.0);
    }

    /** `update(dt)`, with the tick's random value `r` and the host square root. */
    method Update(dt: real, r: real, sqrt: real -> real)
      requires Valid() && IsSqrt(sqrt)
      modifies this, ball, ball.vel, sticks[0], sticks[1]
      ensures Valid() && sticks == old(sticks)
      ensures Snapshot() == Tick(old(Snapshot()), width, height, dt, r, sqrt)
    {
      ghost var w := Snapshot();
      ball.CalcNewPos(dt);
      ball.ReverseOnCollisionWithCanvasTopOrBottom(height);
      StruckBallCanBounce(w.ball, dt, height, w.left.Box(), w.right.Box(), r);
      ball.ReverseOnCollisionWithSticks(sticks, r, sqrt);
      assert ball.State() == Flight(w.ball, w.left.Box(), w.right.Box(), height, dt, r, sqrt);
      if ball.State().CheckCollisionWithCanvasSide(width, LeftSide) {
        sticks[1].score := sticks[1].score + 1;
        ResetBall();
        ResetSticksSoft();
      } else if ball.State().CheckCollisionWithCanvasSide(width, RightSide) {
        sticks[0].score := sticks[0].score + 1;
        ResetBall();
        ResetSticksSoft();
      }
      sticks[1].CalcNewPos(height, ball, dt);
    }

    /** `start()`, with the serve's two random values and the host square root. */
    method Start(r1: real, r2: real, sqrt: real -> real)
      requires Valid() && IsSqrt(sqrt)
      modifies ball.vel
      ensures ball == old(ball) && sticks == old(sticks)
      ensures Snapshot() == old(Snapshot()).(ball := Served(old(ball.State()), StartSpeed(), r1, r2, sqrt))
    {
      if ball.vel.Speed(sqrt) == 0.0 {
        var startSpeed := StartSpeed();
        ball.vel.x := startSpeed * (if r1 > 0.5 then 1.0 else -1.0);
        ball.vel.y := startSpeed * (r2 * 2.0 - 1.0);
        assert ball.vel.Value() == Aimed(startSpeed, r1, r2);
        NormSign(ball.vel.x, ball.vel.y);
        ball.vel.SetSpeed(startSpeed, sqrt);
      }
    }

    /** The `mousemove` handler: the human paddle follows the pointer's height. */
    method MoveHumanStick(y: real)
      requires Valid()
      modifies sticks[0]
      ensures Snapshot() == old(Snapshot()).(left := old(sticks[0].State()).(pos := old(sticks[0].pos).(y := y)))
    {
      sticks[0].MoveTo(y);
    }
  }
}
