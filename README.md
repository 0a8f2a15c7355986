# Pong simulation core in Dafny

This project models the per-frame simulation of a small two-player Pong game
written in Rust on top of the ggez engine (`src/main.rs`). It covers:

- the paddle move, which shifts a paddle by the paddle speed and clamps it onto the screen;
- the ball step:
  - it moves the ball by its velocity;
  - it applies at most one paddle hit, testing the left paddle first;
  - it then bounces the ball off the top or bottom wall;
- the two goal tests and the serve that re-centres the ball;
- the tick: keyboard priority per side, paddle moves, ball step, then scoring
  for the opposite player.

The model has one module, `Game`, in `pong.dfy`:

- The value-level functions are the specification:
  - `MovedY` and `PlayerInput` for the paddles;
  - `BallStep`, `LeftPlayerGoal`, `RightPlayerGoal` and `Served` for the ball;
  - `Tick` and `Run` for the match.
- The classes hold the state the game changes in place:
  - `Player` has `x` and `y`;
  - `Ball` has `x`, `y`, `xSpeed` and `ySpeed`;
  - `Pong` has a ball, a two-element `players` array and a two-element `score` array.
- Each method is proved to change its object's state exactly as the matching function says.
- Lemmas about `Run` carry the per-tick facts across any number of ticks.

Coordinates are `real`. The window size is passed in as `width` and `height`, because the game reads it from the graphics context. The keys are four booleans (W, S, Up, Down) in `TickInput`. The velocity of a serve is part of `TickInput` too, because the game draws it at random; it is only used on a tick that scores.

Facts about the game that the model keeps:

- A new ball starts with velocity `(BALL_SPEED, BALL_SPEED)`, so its speed is 5·√2. A serve after a goal has speed 5. `RunKeepsSpeed` therefore assumes that every serve has the ball's current speed, not one fixed constant.
- The game reads the window size again on every paddle move, bottom-wall test, serve and right-goal test. The left-goal test and the paddle hit tests do not use it. The game never re-clamps a paddle that does not move.
- A left goal means the ball is past the left edge; it scores for the second player (`score[1]`). A right goal scores for the first player (`score[0]`). The left test comes first.
- After a left-paddle hit, the ball's x is the paddle's x plus the literal `10.0` plus the radius. That literal equals `PLAYER_WIDTH`, so `BallStep` states that the ball then touches the paddle's right face.

## Model

| member | source | states |
|---|---|---|
| `Game.MovedY` | src/main.rs:59-70 | On a playfield at least one paddle tall, the paddle ends on screen from any start. The move equals the ±10 shift clamped to `[0, height - PLAYER_HEIGHT]`. A shift that stays on screen is taken unchanged. From on screen, Up never moves the paddle down and Down never moves it up. |
| `Game.UpMovesReachTop` | src/main.rs:59-70 | Repeated Up moves that cover the distance to the top leave an on-screen paddle exactly at `y = 0`, never above it. |
| `Game.DownMovesReachBottom` | src/main.rs:59-70 | Repeated Down moves that cover the distance to the bottom leave the paddle exactly at `height - PLAYER_HEIGHT`. |
| `Game.Player.UpdateFromMove` | src/main.rs:59-70 | The new `y` is `MovedY` of the old `y`, and `x` is unchanged. With `height >= PLAYER_HEIGHT` the paddle is on screen. |
| `Game.Player.constructor` | src/main.rs:45-57 | A new paddle is at the given `x` and `y`. |
| `Game.PlayerInput` | src/main.rs:173-183 | `x` is kept. The first key (W, or Up) wins over the second (S, or Down). With no key pressed the paddle is unchanged. A paddle on screen stays on screen. |
| `Game.BallStep` | src/main.rs:105-132 | The hit tests are `LeftPaddleHit` (src/main.rs:109-112) and `RightPaddleHit` (src/main.rs:116-119). Each velocity component is kept or negated. A left-paddle hit puts the ball against the paddle's right face, outside it, with `x_speed` negated. A right hit is applied only when there is no left hit; it puts the ball against the right paddle's left face, outside it, with `x_speed` negated. With no hit, `x` is the old `x + x_speed` and `x_speed` is kept. `y_speed` is negated exactly when a wall was crossed. A ball past the top wall rests at `y = BALL_RADIUS`. Otherwise, a ball past the bottom wall rests at `y = height - BALL_RADIUS`. With `height >= 2·BALL_RADIUS` the ball ends between the walls. |
| `Game.BallStepKeepsSpeed` | src/main.rs:114-130 | One ball step keeps the square of the ball's speed. |
| `Game.Ball.Update` | src/main.rs:105-132 | The ball's new state is `BallStep` of its old state against both paddles. Each speed component is kept or negated. The ball ends between the walls on a tall enough playfield. |
| `Game.Ball.constructor` | src/main.rs:87-103 | A new ball is at the given position with velocity `(BALL_SPEED, BALL_SPEED)`. |
| `Game.Served` | src/main.rs:134-142 | A served ball is at `(width/2, height/2)` with the given velocity. On a playfield at least `2·BALL_RADIUS` wide it is past neither side, and on one at least `2·BALL_RADIUS` tall it lies between the walls. |
| `Game.Ball.Reset` | src/main.rs:134-143 | The ball's new state is `Served` with the drawn velocity. |
| `Game.GoalsExclusive` | src/main.rs:145-151 | On a playfield at least one ball wide, the left and right goal tests never hold together. |
| `Game.Tick` | src/main.rs:172-193 | Each paddle follows only its own side's keys and keeps its `x`. The ball step sees the moved paddles. No score decreases, and at most one score rises, by one. `score[1]` rises exactly on a left goal. `score[0]` rises exactly on a right goal with no left goal. A goal serves the ball from the centre; otherwise the ball has taken its step. On a playfield at least `2·BALL_RADIUS` tall, the ball ends between the walls. |
| `Game.Pong.Update` | src/main.rs:172-193 | One frame changes the match state exactly as `Tick` says. |
| `Game.Pong.constructor` | src/main.rs:155-170 | A new match is in the state `Initial`: scores `[0, 0]`, the ball at the centre with speed `(BALL_SPEED, BALL_SPEED)`, and the paddles at x `PLAYER_OFFSET` and `width - PLAYER_OFFSET`, both at y = 10. |
| `Game.Moves` | src/main.rs:59-70 | The paddle's `y` after `n` moves in one direction. It has no contract of its own; `UpMovesReachTop` and `DownMovesReachBottom` state what it gives. |
| `Game.LeftPlayerGoal` | src/main.rs:145-147 | The ball's left edge is past the left side: `x - BALL_RADIUS < 0`. It is a plain predicate; `GoalsExclusive`, `Served` and `Tick` state its role. |
| `Game.RightPlayerGoal` | src/main.rs:149-151 | The ball's right edge is past the right side: `x + BALL_RADIUS > width`. It is a plain predicate; `GoalsExclusive`, `Served` and `Tick` state its role. |
| `Game.Initial` | src/main.rs:155-169 | The state of a new match. It has no contract of its own; `Pong.constructor` yields it, and `MatchInvariants` states what holds from it. |
| `Game.Run` | src/main.rs:172-193 | The state after a sequence of frames, applying `Tick` once per frame in a window of fixed size. It has no contract of its own; the `Run…` lemmas state what it keeps. |
| `Game.RunKeepsPaddleX` | src/main.rs:172-193 | No number of ticks changes either paddle's `x`. |
| `Game.RunKeepsPaddlesOnScreen` | src/main.rs:172-193 | Paddles that start on screen stay on screen for any number of ticks. |
| `Game.RunKeepsBallBetweenWalls` | src/main.rs:172-193 | A ball that starts between the walls stays there for any number of ticks. |
| `Game.RunScores` | src/main.rs:172-193 | Over any run, neither score decreases. The two scores together rise by at most the number of ticks. |
| `Game.RunKeepsSpeed` | src/main.rs:172-193 | If every serve has the ball's starting speed, the ball keeps that speed for the whole run. |
| `Game.MatchInvariants` | src/main.rs:155-193 | From a new match on a playfield at least 110 tall (paddle start 10 plus paddle height 100): the paddles stay at x `PLAYER_OFFSET` and `width - PLAYER_OFFSET` and on screen. The ball stays between the walls. There are at most as many goals as ticks. |


## Left out

- Program start-up and the event loop (`main`, `ContextBuilder`, `event::run`, the `EventHandler` impl) are not modelled, because they are window and event-loop I/O. `Run` stands for a sequence of frames.
- Drawing (`draw`, the `graphics::Mesh` fields and their construction) is left out, because it handles graphics resources only.
- The window title built from the score on each frame (src/main.rs:195-196) is left out, because it is presentation only.
- The random serve angle (src/main.rs:138-142) is left out, because it uses a random number generator and `cos`/`sin`. The drawn velocity is an input, `TickInput.serveXSpeed`/`serveYSpeed`, and nothing constrains it.
- 32-bit float rounding is not modelled; the coordinates are exact `real`s.
- Game.Pong.Update: the scores are unbounded `nat`s. The game's `u32` counters would overflow after 2^32 goals by one side, which is a panic in debug builds and a wrap to 0 in release builds.
- Reading the window size and the keyboard from the engine is not modelled. The values are parameters of each operation.
- Window resizing during a run is not modelled. The window is resizable, and the game re-reads its size on every frame. `Run` and the lemmas about it (`RunKeepsPaddlesOnScreen`, `RunKeepsBallBetweenWalls`, `MatchInvariants`) assume one fixed `width` and `height` for the whole run.
- After the window shrinks, the game leaves an idle paddle where it was, possibly off screen. `Tick` states this: a side with no key pressed keeps its paddle unchanged, at any `height`.
