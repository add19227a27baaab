# Pong simulation core in Dafny

This project models the per-tick simulation of the browser Pong game in
`pong.js`: the centre-anchored boxes of the ball and of the two paddles
("sticks"), the ball's step, the reflections off the top and bottom borders
and off the paddles, the random vertical nudge with a 1.05× speed-up on a
paddle hit, the goal test with scoring and the reset of the round, the
capped pursuit of the right paddle, and the serve.

Layout, following the classes of `pong.js`:

- `geometry.dfy` (`Geometry`): vectors and axes, and `Rect` with its edge getters.
- `velocity.dfy` (`Speeds`): the `Velocity` class. Its `speed` getter is
  `Magnitude`. Its `speed` setter rescales the vector (`Rescaled`).
- `rules.dfy` (`Rules`): the ball and paddle rules stated on values
  (`BallState`, `StickState`) and the lemmas about them.
- `bodies.dfy` (`Bodies`): the classes `Ball` and `Stick`. Their methods
  update fields in place and are proved to follow the `Rules` functions.
- `game.dfy` (`Game`): `update(dt)` as the function `Tick` on a `World`, and
  `start()` as `Served`. The class `Pong` owns the ball and the paddle
  sequence. `Pong.Update` and `Pong.Start` are proved to follow `Tick` and
  `Served`.
- `wrappers.dfy` (`Wrappers`): `Option`, for the paddle velocity that only
  the pursuing paddle has.

Host services are parameters:

- `Math.sqrt` is a function `sqrt` of which only `IsSqrt` is known: it
  returns the non-negative root of every non-negative real.
- `Math.random()` is a value `r` (in `reverse(.., "random")`) or `r1`, `r2`
  (in `start`).
- Numbers are exact reals.

## Model

| member | source | states |
|---|---|---|
| Geometry.Rect.Left | pong.js:49-51 | the left edge, half a width left of the centre (defining; no contract) |
| Geometry.Rect.Top | pong.js:57-59 | the top edge, half a height above the centre (defining; no contract) |
| Geometry.Rect.Right | pong.js:49-55 | `right - left` is the box width, and the centre lies halfway between the edges |
| Geometry.Rect.Bottom | pong.js:57-63 | `bottom - top` is the box height, and the centre lies halfway between the edges |
| Rules.BallState.PrevLeft | pong.js:91-93 | `prevLeft` lies the same half-width left of the previous centre as `left` lies of the centre |
| Rules.BallState.PrevRight | pong.js:95-97 | `prevRight` lies the same half-width right of the previous centre as `right` lies of the centre, one width from `prevLeft` |
| Rules.BallState.CheckCollisionWithCanvasSide | pong.js:135-145 | true exactly when the side is left and `left < 0`, or the side is right and `right > width` |
| Rules.GoalSidesExclusive | pong.js:135-145 | a ball no wider than the field is never past both sides at once |
| Speeds.Magnitude | pong.js:16-20 | the `speed` getter is the non-negative root of `x² + y²`, and positive when that sum is |
| Speeds.Velocity.constructor | pong.js:8-14 | a velocity with exactly the given coordinates |
| Speeds.Velocity.Speed | pong.js:16-20 | the getter on the object is the root of its own `x² + y²` |
| Speeds.Rescaled | pong.js:22-28 | the setter keeps the direction (`w.x * v.y == w.y * v.x`); for a positive target it keeps the sign of each coordinate |
| Speeds.RescaledLength | pong.js:22-28 | after the setter, the squared length is the square of the target speed |
| Speeds.RescaledMagnitude | pong.js:22-28 | after the setter with a non-negative target, the getter returns that target |
| Speeds.Velocity.SetSpeed | pong.js:22-28 | the object's new coordinates are the old ones multiplied by `value / speed` |
| Rules.Moved | pong.js:99-105 | `prev` becomes the old centre, the centre moves by `vel * dt` on each axis, and size and velocity are kept; a ball at rest does not move |
| Bodies.Ball.CalcNewPos | pong.js:99-105 | the object's state afterwards is `Moved` of its state before |
| Rules.Flipped | pong.js:147-149 | the coordinate along the axis changes sign and the other coordinate is kept |
| Rules.FlipKeepsLength | pong.js:147-149 | a flip keeps the squared speed, and flipping twice restores the velocity |
| Bodies.Ball.Flip | pong.js:147-149 | the object's velocity becomes `Flipped` of the old one and nothing else changes |
| Rules.Nudged | pong.js:150-152 | only the coordinate along the axis moves, by `300 * (r - 0.5)`, which lies in [-150, 150) for `r` in [0, 1) |
| Rules.Randomized | pong.js:150-154 | the result points along the nudged velocity `Nudged(v, axis, r)` (zero cross product); for a moving ball it has the nudged velocity's sign on each axis |
| Rules.RandomizedLength | pong.js:150-154 | after the nudge and the rescale to 1.05× the earlier speed, the squared speed is 1.1025× the old one, whatever `r` is |
| Bodies.Ball.Randomize | pong.js:150-154 | the object's velocity becomes `Randomized` of the old one and nothing else changes |
| Rules.ReflectedOffTopOrBottom | pong.js:107-116 | when `top < 0` or `bottom > height`, `vel.y` is negated; otherwise nothing changes; `vel.x`, the centre, `prev` and the size never change |
| Rules.ReflectionKeepsSpeed | pong.js:107-116 | reflecting off the top or bottom keeps the squared speed |
| Rules.ReflectionTwiceRestores | pong.js:107-116 | reflecting twice at the same place restores the ball |
| Rules.ReflectionSendsBallBack | pong.js:107-112 | a rising ball past the top is sent downwards with the same `vel.x` |
| Bodies.Ball.ReverseOnCollisionWithCanvasTopOrBottom | pong.js:107-116 | the object's state afterwards is `ReflectedOffTopOrBottom` of its state before |
| Rules.LeftStickCollision | pong.js:119-122 | the swept left-paddle test; a ball that passes it has moved left |
| Rules.RightStickCollision | pong.js:124-127 | the swept right-paddle test; a ball that passes it has moved right |
| Rules.NoDoubleHit | pong.js:118-127 | one tick never passes both paddle tests |
| Rules.StickCollision | pong.js:129 | a hit with either paddle (defining; no contract) |
| Rules.Bounced | pong.js:129-132 | after a hit the velocity points along the flipped, nudged velocity `Nudged(Flipped(v, X), Y, r)`, its `vel.y` has that vector's sign, and a nonzero `vel.x` changes sign |
| Rules.BouncedLength | pong.js:129-132 | a paddle hit multiplies the squared speed by 1.1025 |
| Rules.GrownSpeed | pong.js:151-153 | a vector with 1.05² times another's squared length has 1.05 times its speed |
| Rules.BouncedSpeed | pong.js:129-132 | after a paddle hit the `speed` getter returns 1.05× what it returned before |
| Rules.DeflectedOffSticks | pong.js:118-133 | with no hit the ball is unchanged; on a hit only the velocity changes, to `Bounced`, with `vel.x` of opposite sign |
| Rules.StruckBallCanBounce | pong.js:349-352 | a ball that hits a paddle in `update` has a nonzero `vel.x`, so the velocity the setter divides by is not zero |
| Bodies.Ball.ReverseOnCollisionWithSticks | pong.js:118-133 | the object's state afterwards is `DeflectedOffSticks` of its state before, against `sticks[0]` and `sticks[1]` |
| Bodies.Ball.constructor | pong.js:66-89 | a square ball at the given centre, with both velocity coordinates equal to `speed` and `prev` at the origin |
| Bodies.Stick.constructor | pong.js:158-180 | a paddle with the given centre, size and optional velocity, and score 0 |
| Rules.PursuitStep | pong.js:182-189 | for `dt >= 0` and pursuit speed `>= 0`, the displacement is at most pursuit speed × `dt`; it is exactly `ball.vel.y * dt` while the ball is slower; otherwise it is the full step, in the ball's direction |
| Rules.Pursued | pong.js:182-189 | only `pos.y` of the pursuing paddle changes, by `PursuitStep` |
| Rules.PursuitOfLevelBall | pong.js:183-184 | a ball with `vel.y == 0` leaves a paddle with positive pursuit speed where it is |
| Bodies.Stick.CalcNewPos | pong.js:182-189 | the object's state afterwards is `Pursued` of its state before |
| Bodies.Stick.MoveTo | pong.js:413-415 | the mousemove write: only `pos.y` changes, to the pointer's height |
| Game.PursuitVelocity | pong.js:318-321 | the pursuing paddle's velocity is vertical and, for a positive width and hardness, positive |
| Game.NewBall | pong.js:271-285 | a fresh ball at rest in the centre of the field, a sixtieth of the width wide |
| Game.NewSticks | pong.js:289-324 | two fresh, distinct paddles at x `width/15` and `width - width/15`, at half height, with score 0; only the second pursues |
| Game.RoundBall | pong.js:271-285 | the ball `resetBall` builds: centred, at rest, a sixtieth of the width wide (defining; no contract) |
| Game.Initial | pong.js:246-254 | the world after `resetBall` and `resetSticks("hard")` (defining; no contract) |
| Game.NewRound | pong.js:271-330 | after `resetBall` and `resetSticks("soft")` the ball is at rest in the centre, and both paddles keep their score, size and pursuit velocity |
| Game.Pong.constructor | pong.js:246-254 | the new game holds the reset ball and the hard-reset paddles; the hard reset is `ResetSticksHard` |
| Game.Pong.ResetBall | pong.js:271-285 | the ball is replaced by a fresh one at rest in the centre; the paddles are kept |
| Game.Pong.ResetSticksHard | pong.js:287-324 | both paddles are replaced by fresh ones at home |
| Game.Pong.ResetSticksSoft | pong.js:325-330 | both paddles move home; their sizes, velocities and scores are kept |
| Game.Flight | pong.js:349-352 | the ball's half of `update`; its previous centre is the centre it had, and its size is kept |
| Game.Scored | pong.js:354-362 | the goal test with its else-if scoring and reset (defining; no contract) |
| Game.Tick | pong.js:348-364 | one `update` on values; the paddles keep their sizes and velocities, and no score falls |
| Game.TickScoresAtMostOne | pong.js:354-362 | in one `update` at most one score rises, by exactly one, and no score falls |
| Game.LeftExitScoresForRight | pong.js:354-362 | `sticks[1]` scores exactly when the ball leaves through the left; `sticks[0]` exactly when it leaves through the right and not the left |
| Game.GoalResetsRound | pong.js:348-364 | after a goal the ball is at `(width/2, height/2)` at rest and the paddles are at home; the pursuing paddle stays centred in that tick when its pursuit speed is positive |
| Game.PlayContinues | pong.js:348-364 | without a goal the ball keeps its flight, `sticks[0]` is untouched and `sticks[1]` makes one pursuit step |
| Game.LeftGoalExample | pong.js:348-362 | a worked case: a ball at x = 10, 20 wide, moving left at 50 for one second, scores for `sticks[1]` and is reset to the centre at rest |
| Game.Pong.Update | pong.js:348-367 | the game's snapshot afterwards is `Tick` of its snapshot before, the same two paddle objects stay in place, and the game stays well formed |
| Game.Pong.StartSpeed | pong.js:383 | the start speed `width / twimts` is positive for a positive width |
| Game.Aimed | pong.js:384-385 | the serve direction before the rescale (defining; no contract) |
| Game.Served | pong.js:381-388 | `start` on values; only the velocity can change |
| Game.ServeIgnoresMovingBall | pong.js:381-382 | `start` leaves a moving ball unchanged |
| Game.ServeFromRest | pong.js:381-388 | from rest, `start` gives exactly the start speed whatever the random values, sends the ball right exactly when `r1 > 0.5`, points it along `Aimed(speed, r1, r2)` with that vector's vertical sign, and moves nothing else |
| Game.ServeIdempotent | pong.js:381-388 | a second `start` is a no-op |
| Game.Pong.Start | pong.js:381-388 | the game's snapshot afterwards has its ball `Served` and nothing else changed; the ball and paddle objects stay the same |
| Game.Pong.MoveHumanStick | pong.js:413-415 | only `sticks[0].pos.y` changes, to the pointer's height |

## Left out

- Canvas creation and sizing from the page (`initializeCanvas`, pong.js:256-269): DOM I/O. The field width and height are constructor parameters. The model requires them, the hardness and `twimts` to be positive.
- Drawing (`Rect.draw`, `Pong.draw`, `Stick.drawScore`, `initCanvasesWithDigits`, and the `canvasWidth`, `PIXEL` and `CWD` fields of `Stick`): pixel output only. `Pong.Update` leaves out the final `this.draw()`.
- The `requestAnimationFrame` loop (`track`): host timing. `Update` takes `dt` as a parameter.
- The `select` and `click` listeners: event plumbing. The `mousemove` listener is `Pong.MoveHumanStick`.
- IEEE-754 rounding, `NaN` and `Infinity`: numbers are exact reals. The source produces `NaN` when a speed it divides by is 0. The model excludes those cases by preconditions instead:
  - `Velocity.SetSpeed` requires a positive current speed;
  - `Ball.Randomize` requires a nonzero nudged velocity;
  - `Served` requires a positive start speed.
- `Math.sqrt` and `Math.random`: parameters, as described above.
- The string-to-number coercion of `hardness`: the hardness is a positive real.
- String arguments: `reverse(axis, type)` is split into `Ball.Flip` ("dinamic") and `Ball.Randomize` ("random"), and `resetSticks(type)` into `Pong.ResetSticksHard` and `Pong.ResetSticksSoft`. A call with any other string does nothing in the source and is not modelled. The side of `checkCollisionWithCanvasSide` is the two-valued `Side`, so its `undefined` result for another string is not modelled.
- `Dimension` objects for positions and sizes are `Vec` values overwritten as a whole. No two objects share a position in the source either. A paddle's `Velocity` object is never written, so it is an `Option<Vec>` value. The ball's `Velocity` is an object, written in place.
- The `Pong` constructor: its ball field needs a value before the object exists, so it allocates the ball with `NewBall`, the allocation `ResetBall` makes, rather than calling `ResetBall`. It then calls `ResetSticksHard`.
- An exception from `Stick.calcNewPos` on a paddle without a velocity, or from `reverseOnCollisionWithSticks` with fewer than two paddles: the model's preconditions exclude both.
- Rules.DeflectedOffSticks: the sign flip of `vel.x` is stated only for a nonzero `vel.x`. In `update` a struck ball always has one (`Rules.StruckBallCanBounce`).
- Two facts about `pong.js` that a reader might expect otherwise; the model follows the code:
  - the soft reset also moves each paddle back to its home x, not only to the vertical centre;
  - a non-positive configuration is not rejected at construction by the code; the model's constructor requires a positive one.
