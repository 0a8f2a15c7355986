/**
 * A model of the per-frame simulation of a two-player Pong game: paddle
 * movement, the ball step with paddle and wall collisions, the goal tests,
 * serving and the tick that ties them together and keeps the score.
 *
 * Coordinates are `real` numbers (the game uses 32-bit floats). The size of
 * the window is passed in as `width` and `height`, the keyboard as booleans,
 * and the velocity of a serve, which the game draws at random, as an input.
 *
 * The functions on values (`MovedY`, `BallStep`, `Tick`, ...) are the
 * specification; the classes `Player`, `Ball` and `Pong` hold the state the
 * game updates in place, and each of their methods is proved to change that
 * state as the matching function says.
 */
module Game {

  // The game's constants.
  const BallRadius: real := 10.0
  const BallSpeed: real := 5.0
  const PlayerWidth: real := 10.0
  const PlayerHeight: real := 100.0
  const PlayerSpeed: real := 10.0
  const PlayerOffset: real := 50.0

  /** The vertical position at which both paddles start. */
  const PlayerStartY: real := 10.0

  /** The fixed horizontal distance from a paddle's x to the ball's rest
      position after a left-paddle hit, written as a literal in the game. */
  const LeftHitOffset: real := 10.0

  datatype Direction = Up | Down

  /** A paddle: `x` is fixed per side, `y` is its top edge. */
  datatype PaddleState = PaddleState(x: real, y: real)

  /** The ball: centre and velocity per tick. */
  datatype BallState = BallState(x: real, y: real, xSpeed: real, ySpeed: real)

  /** The whole match: `score0` and `score1` are the two entries of the
      score array, in that order. */
  datatype GameState = GameState(
    ball: BallState,
    left: PaddleState,
    right: PaddleState,
    score0: nat,
    score1: nat)

  /** What one tick reads from outside the simulation: the four keys, and
      the velocity the random serve would pick if this tick is a goal. */
  datatype TickInput = TickInput(
    w: bool, s: bool, up: bool, down: bool,
    serveXSpeed: real, serveYSpeed: real)

  function Max(a: real, b: real): real { if a < b then b else a }
  function Min(a: real, b: real): real { if a < b then a else b }

  /** The paddle's top edge lies on the screen. */
  predicate OnScreen(y: real, height: real) {
    0.0 <= y <= height - PlayerHeight
  }

  /** The ball lies between the top and the bottom wall. */
  predicate BetweenWalls(b: BallState, height: real) {
    BallRadius <= b.y <= height - BallRadius
  }

  // ---------------------------------------------------------------------
  // Paddle movement

  /** The paddle's `y` after one move: shift by the paddle speed, then snap
      back onto the screen with the game's if/else-if. */
  function MovedY(y: real, dir: Direction, height: real): (r: real)
    // on a playfield at least one paddle tall, the paddle ends on screen,
    // whatever its position before the move
    ensures height >= PlayerHeight ==> OnScreen(r, height)
    // and the move is the shift clamped into the screen
    ensures height >= PlayerHeight ==>
      r == Max(0.0, Min(if dir == Up then y - PlayerSpeed else y + PlayerSpeed,
                        height - PlayerHeight))
    // a shift that stays on screen is taken as it is
    ensures OnScreen(if dir == Up then y - PlayerSpeed else y + PlayerSpeed, height) ==>
      r == (if dir == Up then y - PlayerSpeed else y + PlayerSpeed)
    // from on screen, Up never moves the paddle down and Down never up
    ensures OnScreen(y, height) ==> (if dir == Up then r <= y else y <= r)
  {
    var shifted := match dir
      case Up => y - PlayerSpeed
      case Down => y + PlayerSpeed;
    if shifted < 0.0 then 0.0
    else if shifted + PlayerHeight > height then height - PlayerHeight
    else shifted
  }

  /** The paddle's `y` after `n` moves in the same direction. */
  function Moves(y: real, dir: Direction, n: nat, height: real): real
    decreases n
  {
    if n == 0 then y else Moves(MovedY(y, dir, height), dir, n - 1, height)
  }

  /** Enough Up moves bring an on-screen paddle to the top edge, and the
      clamp keeps it there instead of letting it go above. */
  lemma {:induction false} UpMovesReachTop(y: real, n: nat, height: real)
    requires height >= PlayerHeight && OnScreen(y, height)
    requires n as real * PlayerSpeed >= y
    ensures Moves(y, Up, n, height) == 0.0
    decreases n
  {
    if n > 0 {
      UpMovesReachTop(MovedY(y, Up, height), n - 1, height);
    }
  }

  /** Enough Down moves bring an on-screen paddle to the bottom edge. */
  lemma {:induction false} DownMovesReachBottom(y: real, n: nat, height: real)
    requires height >= PlayerHeight && OnScreen(y, height)
    requires n as real * PlayerSpeed >= height - PlayerHeight - y
    ensures Moves(y, Down, n, height) == height - PlayerHeight
    decreases n
  {
    if n > 0 {
      DownMovesReachBottom(MovedY(y, Down, height), n - 1, height);
    }
  }

  /** One side's input: the first key wins over the second, no key keeps
      the paddle where it is. */
  function PlayerInput(p: PaddleState, upKey: bool, downKey: bool, height: real): (r: PaddleState)
    ensures r.x == p.x
    ensures upKey ==> r.y == MovedY(p.y, Up, height)
    ensures !upKey && downKey ==> r.y == MovedY(p.y, Down, height)
    ensures !upKey && !downKey ==> r == p
    ensures height >= PlayerHeight && OnScreen(p.y, height) ==> OnScreen(r.y, height)
  {
    if upKey then PaddleState(p.x, MovedY(p.y, Up, height))
    else if downKey then PaddleState(p.x, MovedY(p.y, Down, height))
    else p
  }

  // ---------------------------------------------------------------------
  // The ball

  /** The ball, at centre (x, y), has its left edge inside the left paddle's
      horizontal span and overlaps it vertically. */
  predicate LeftPaddleHit(x: real, y: real, p: PaddleState) {
    x - BallRadius < p.x + PlayerWidth
    && x - BallRadius > p.x
    && y + BallRadius > p.y
    && y - BallRadius < p.y + PlayerHeight
  }

  /** The ball has its right edge inside the right paddle's horizontal span
      and overlaps it vertically. */
  predicate RightPaddleHit(x: real, y: real, p: PaddleState) {
    x + BallRadius > p.x
    && x + BallRadius < p.x + PlayerWidth
    && y + BallRadius > p.y
    && y - BallRadius < p.y + PlayerHeight
  }

  /** The ball centred at height `y` crosses the top or the bottom wall. */
  predicate HitsWall(y: real, height: real) {
    y - BallRadius < 0.0 || y + BallRadius > height
  }

  /** The square of the ball's speed. */
  function SpeedSquared(b: BallState): real {
    b.xSpeed * b.xSpeed + b.ySpeed * b.ySpeed
  }

  /** One step of the ball: move by the velocity, then at most one paddle
      hit (the left paddle is tested first), then a bounce off a wall. */
  function BallStep(b: BallState, left: PaddleState, right: PaddleState, height: real): (r: BallState)
    // each velocity component keeps its size: it is kept or negated
    ensures r.xSpeed == b.xSpeed || r.xSpeed == -b.xSpeed
    ensures r.ySpeed == b.ySpeed || r.ySpeed == -b.ySpeed
    // a left hit leaves the ball touching the left paddle's right face and
    // no longer inside it, moving the other way
    ensures LeftPaddleHit(b.x + b.xSpeed, b.y + b.ySpeed, left) ==>
      r.x - BallRadius == left.x + PlayerWidth && r.xSpeed == -b.xSpeed
      && !LeftPaddleHit(r.x, b.y + b.ySpeed, left)
    // the right paddle is only tested when the left one was not hit; a right
    // hit leaves the ball touching its left face and no longer inside it
    ensures (!LeftPaddleHit(b.x + b.xSpeed, b.y + b.ySpeed, left)
             && RightPaddleHit(b.x + b.xSpeed, b.y + b.ySpeed, right)) ==>
      r.x + BallRadius == right.x && r.xSpeed == -b.xSpeed
      && !RightPaddleHit(r.x, b.y + b.ySpeed, right)
    // with no hit the ball just moves across
    ensures (!LeftPaddleHit(b.x + b.xSpeed, b.y + b.ySpeed, left)
             && !RightPaddleHit(b.x + b.xSpeed, b.y + b.ySpeed, right)) ==>
      r.x == b.x + b.xSpeed && r.xSpeed == b.xSpeed
    // the vertical speed is negated exactly when a wall was crossed, and
    // then the ball rests against the wall it crossed, the top one first
    ensures b.y + b.ySpeed - BallRadius < 0.0 ==>
      r.y == BallRadius && r.ySpeed == -b.ySpeed
    ensures !(b.y + b.ySpeed - BallRadius < 0.0) && b.y + b.ySpeed + BallRadius > height ==>
      r.y == height - BallRadius && r.ySpeed == -b.ySpeed
    ensures !HitsWall(b.y + b.ySpeed, height) ==>
      r.y == b.y + b.ySpeed && r.ySpeed == b.ySpeed
    // on a playfield at least one ball tall, the ball ends between the walls
    ensures height >= 2.0 * BallRadius ==> BetweenWalls(r, height)
  {
    var x, y := b.x + b.xSpeed, b.y + b.ySpeed;
    var (x', xSpeed') :=
      if LeftPaddleHit(x, y, left) then (left.x + LeftHitOffset + BallRadius, -b.xSpeed)
      else if RightPaddleHit(x, y, right) then (right.x - BallRadius, -b.xSpeed)
      else (x, b.xSpeed);
    var (y', ySpeed') :=
      if y - BallRadius < 0.0 then (BallRadius, -b.ySpeed)
      else if y + BallRadius > height then (height - BallRadius, -b.ySpeed)
      else (y, b.ySpeed);
    BallState(x', y', xSpeed', ySpeed')
  }

  /** The ball's step keeps its speed. */
  lemma BallStepKeepsSpeed(b: BallState, left: PaddleState, right: PaddleState, height: real)
    ensures SpeedSquared(BallStep(b, left, right, height)) == SpeedSquared(b)
  {
  }

  /** The ball's left edge is past the left side of the screen. */
  predicate LeftPlayerGoal(b: BallState) {
    b.x - BallRadius < 0.0
  }

  /** The ball's right edge is past the right side of the screen. */
  predicate RightPlayerGoal(b: BallState, width: real) {
    b.x + BallRadius > width
  }

  /** On a playfield at least one ball wide, the ball is never past both
      sides at once. */
  lemma GoalsExclusive(b: BallState, width: real)
    requires width >= 2.0 * BallRadius
    ensures !(LeftPlayerGoal(b) && RightPlayerGoal(b, width))
  {
  }

  /** A serve: the ball at the centre of the playfield, with the velocity
      the random draw picked. */
  function Served(width: real, height: real, xSpeed: real, ySpeed: real): (r: BallState)
    ensures 2.0 * r.x == width && 2.0 * r.y == height
    ensures r.xSpeed == xSpeed && r.ySpeed == ySpeed
    // a served ball is neither past a side nor outside the walls
    ensures width >= 2.0 * BallRadius ==> !LeftPlayerGoal(r) && !RightPlayerGoal(r, width)
    ensures height >= 2.0 * BallRadius ==> BetweenWalls(r, height)
  {
    BallState(width / 2.0, height / 2.0, xSpeed, ySpeed)
  }

  // ---------------------------------------------------------------------
  // The match

  /** The state in which a match starts. */
  function Initial(width: real, height: real): GameState {
    GameState(
      BallState(width / 2.0, height / 2.0, BallSpeed, BallSpeed),
      PaddleState(PlayerOffset, PlayerStartY),
      PaddleState(width - PlayerOffset, PlayerStartY),
      0, 0)
  }

  /** One tick: input for each side, then the ball step against the moved
      paddles, then the goal tests, which score for the opposite player and
      serve again. */
  function Tick(g: GameState, input: TickInput, width: real, height: real): (r: GameState)
    // the paddles only ever move vertically, each by its own side's keys
    ensures r.left == PlayerInput(g.left, input.w, input.s, height)
    ensures r.right == PlayerInput(g.right, input.up, input.down, height)
    ensures r.left.x == g.left.x && r.right.x == g.right.x
    // no score decreases, and at most one increases, by one
    ensures r.score0 >= g.score0 && r.score1 >= g.score1
    ensures r.score0 + r.score1 <= g.score0 + g.score1 + 1
    // a ball past the left side scores for the second player ...
    ensures r.score1 == g.score1 + 1 <==> LeftPlayerGoal(BallStep(g.ball, r.left, r.right, height))
    // ... and otherwise a ball past the right side scores for the first
    ensures r.score0 == g.score0 + 1 <==>
      !LeftPlayerGoal(BallStep(g.ball, r.left, r.right, height))
      && RightPlayerGoal(BallStep(g.ball, r.left, r.right, height), width)
    // a goal serves the ball from the centre; otherwise the ball has stepped
    ensures r.score0 + r.score1 != g.score0 + g.score1 ==>
      r.ball == Served(width, height, input.serveXSpeed, input.serveYSpeed)
    ensures r.score0 + r.score1 == g.score0 + g.score1 ==>
      r.ball == BallStep(g.ball, r.left, r.right, height)
    ensures height >= 2.0 * BallRadius ==> BetweenWalls(r.ball, height)
  {
    var left := PlayerInput(g.left, input.w, input.s, height);
    var right := PlayerInput(g.right, input.up, input.down, height);
    var ball := BallStep(g.ball, left, right, height);
    var serve := Served(width, height, input.serveXSpeed, input.serveYSpeed);
    if LeftPlayerGoal(ball) then GameState(serve, left, right, g.score0, g.score1 + 1)
    else if RightPlayerGoal(ball, width) then GameState(serve, left, right, g.score0 + 1, g.score1)
    else GameState(ball, left, right, g.score0, g.score1)
  }

  /** The state after the ticks of `inputs`, in order. */
  function Run(g: GameState, inputs: seq<TickInput>, width: real, height: real): GameState
    decreases |inputs|
  {
    if inputs == [] then g
    else Run(Tick(g, inputs[0], width, height), inputs[1..], width, height)
  }

  /** The paddles never move horizontally, however long the match. */
  lemma {:induction false} RunKeepsPaddleX(g: GameState, inputs: seq<TickInput>, width: real, height: real)
    ensures Run(g, inputs, width, height).left.x == g.left.x
    ensures Run(g, inputs, width, height).right.x == g.right.x
    decreases |inputs|
  {
    if inputs != [] {
      RunKeepsPaddleX(Tick(g, inputs[0], width, height), inputs[1..], width, height);
    }
  }

  /** Paddles that start on screen stay on screen. */
  lemma {:induction false} RunKeepsPaddlesOnScreen(g: GameState, inputs: seq<TickInput>, width: real, height: real)
    requires height >= PlayerHeight
    requires OnScreen(g.left.y, height) && OnScreen(g.right.y, height)
    ensures OnScreen(Run(g, inputs, width, height).left.y, height)
    ensures OnScreen(Run(g, inputs, width, height).right.y, height)
    decreases |inputs|
  {
    if inputs != [] {
      RunKeepsPaddlesOnScreen(Tick(g, inputs[0], width, height), inputs[1..], width, height);
    }
  }

  /** A ball that starts between the walls stays between them. */
  lemma {:induction false} RunKeepsBallBetweenWalls(g: GameState, inputs: seq<TickInput>, width: real, height: real)
    requires height >= 2.0 * BallRadius
    requires BetweenWalls(g.ball, height)
    ensures BetweenWalls(Run(g, inputs, width, height).ball, height)
    decreases |inputs|
  {
    if inputs != [] {
      RunKeepsBallBetweenWalls(Tick(g, inputs[0], width, height), inputs[1..], width, height);
    }
  }

  /** Scores never decrease, and all goals together number at most one per
      tick. */
  lemma {:induction false} RunScores(g: GameState, inputs: seq<TickInput>, width: real, height: real)
    ensures Run(g, inputs, width, height).score0 >= g.score0
    ensures Run(g, inputs, width, height).score1 >= g.score1
    ensures Run(g, inputs, width, height).score0 + Run(g, inputs, width, height).score1
            <= g.score0 + g.score1 + |inputs|
    decreases |inputs|
  {
    if inputs != [] {
      RunScores(Tick(g, inputs[0], width, height), inputs[1..], width, height);
    }
  }

  /** When every serve has the ball's starting speed, the ball keeps that
      speed for the whole match: bounces only flip signs. */
  lemma {:induction false} RunKeepsSpeed(g: GameState, inputs: seq<TickInput>, width: real, height: real)
    requires forall i :: 0 <= i < |inputs| ==>
      inputs[i].serveXSpeed * inputs[i].serveXSpeed + inputs[i].serveYSpeed * inputs[i].serveYSpeed
      == SpeedSquared(g.ball)
    ensures SpeedSquared(Run(g, inputs, width, height).ball) == SpeedSquared(g.ball)
    decreases |inputs|
  {
    if inputs != [] {
      var next := Tick(g, inputs[0], width, height);
      BallStepKeepsSpeed(g.ball, next.left, next.right, height);
      assert SpeedSquared(next.ball) == SpeedSquared(g.ball);
      forall i | 0 <= i < |inputs[1..]|
        ensures inputs[1..][i].serveXSpeed * inputs[1..][i].serveXSpeed
                + inputs[1..][i].serveYSpeed * inputs[1..][i].serveYSpeed
                == SpeedSquared(next.ball)
      {
        assert inputs[1..][i] == inputs[i + 1];
      }
      RunKeepsSpeed(next, inputs[1..], width, height);
    }
  }

  /** From the start of a match on a playfield tall enough for the paddles
      at their starting height: the paddles stay at their two fixed columns
      and on screen, the ball stays between the walls, and there have been
      at most as many goals as ticks. */
  lemma MatchInvariants(inputs: seq<TickInput>, width: real, height: real)
    requires height >= PlayerStartY + PlayerHeight
    ensures Run(Initial(width, height), inputs, width, height).left.x == PlayerOffset
    ensures Run(Initial(width, height), inputs, width, height).right.x == width - PlayerOffset
    ensures OnScreen(Run(Initial(width, height), inputs, width, height).left.y, height)
    ensures OnScreen(Run(Initial(width, height), inputs, width, height).right.y, height)
    ensures BetweenWalls(Run(Initial(width, height), inputs, width, height).ball, height)
    ensures Run(Initial(width, height), inputs, width, height).score0
            + Run(Initial(width, height), inputs, width, height).score1 <= |inputs|
  {
    var g := Initial(width, height);
    RunKeepsPaddleX(g, inputs, width, height);
    RunKeepsPaddlesOnScreen(g, inputs, width, height);
    RunKeepsBallBetweenWalls(g, inputs, width, height);
    RunScores(g, inputs, width, height);
  }

  // ---------------------------------------------------------------------
  // The objects the game updates in place

  class Player {
    var x: real
    var y: real

    constructor (x: real, y: real)
      ensures this.x == x && this.y == y
    {
      this.x := x;
      this.y := y;
    }

    function State(): PaddleState
      reads this
    {
      PaddleState(x, y)
    }

    /** Moves the paddle one step in `dir` and keeps it on screen. */
    method UpdateFromMove(dir: Direction, height: real)
      modifies this`y
      ensures y == MovedY(old(y), dir, height)
      ensures x == old(x)
      ensures height >= PlayerHeight ==> OnScreen(y, height)
    {
      match dir {
        case Up => y := y - PlayerSpeed;
        case Down => y := y + PlayerSpeed;
      }
      if y < 0.0 {
        y := 0.0;
      } else if y + PlayerHeight > height {
        y := height - PlayerHeight;
      }
    }
  }

  class Ball {
    var x: real
    var y: real
    var xSpeed: real
    var ySpeed: real

    /** A new ball at (x, y), moving at the base speed on both axes. */
    constructor (x: real, y: real)
      ensures State() == BallState(x, y, BallSpeed, BallSpeed)
    {
      this.x := x;
      this.y := y;
      xSpeed := BallSpeed;
      ySpeed := BallSpeed;
    }

    function State(): BallState
      reads this
    {
      BallState(x, y, xSpeed, ySpeed)
    }

    /** Moves the ball one tick and resolves paddle and wall collisions. */
    method Update(left: Player, right: Player, height: real)
      modifies this
      ensures State() == BallStep(old(State()), left.State(), right.State(), height)
      ensures xSpeed == old(xSpeed) || xSpeed == -old(xSpeed)
      ensures ySpeed == old(ySpeed) || ySpeed == -old(ySpeed)
      ensures height >= 2.0 * BallRadius ==> BetweenWalls(State(), height)
    {
      x := x + xSpeed;
      y := y + ySpeed;

      if LeftPaddleHit(x, y, left.State()) {
        x := left.x + LeftHitOffset + BallRadius;
        xSpeed := -xSpeed;
      } else if RightPaddleHit(x, y, right.State()) {
        x := right.x - BallRadius;
        xSpeed := -xSpeed;
      }

      if y - BallRadius < 0.0 {
        y := BallRadius;
        ySpeed := -ySpeed;
      } else if y + BallRadius > height {
        y := height - BallRadius;
        ySpeed := -ySpeed;
      }
    }

    /** Serves the ball from the centre with the given velocity. */
    method Reset(width: real, height: real, serveXSpeed: real, serveYSpeed: real)
      modifies this
      ensures State() == Served(width, height, serveXSpeed, serveYSpeed)
    {
      x := width / 2.0;
      y := height / 2.0;
      xSpeed := serveXSpeed;
      ySpeed := serveYSpeed;
    }
  }

  class Pong {
    const ball: Ball
    const players: array<Player>
    const score: array<nat>

    ghost predicate Valid()
      reads players
    {
      players.Length == 2 && score.Length == 2 && players[0] != players[1]
    }

    function State(): GameState
      requires Valid()
      reads players, players[0], players[1], ball, score
    {
      GameState(ball.State(), players[0].State(), players[1].State(), score[0], score[1])
    }

    /** A new match on a `width` by `height` playfield. */
    constructor (width: real, height: real)
      ensures Valid()
      ensures fresh(ball) && fresh(players) && fresh(players[0]) && fresh(players[1]) && fresh(score)
      ensures State() == Initial(width, height)
    {
      var b := new Ball(width / 2.0, height / 2.0);
      var leftPlayer := new Player(PlayerOffset, PlayerStartY);
      var rightPlayer := new Player(width - PlayerOffset, PlayerStartY);
      ball := b;
      players := new Player[2][leftPlayer, rightPlayer];
      score := new nat[2][0, 0];
    }

    /** One frame of the game. */
    method Update(input: TickInput, width: real, height: real)
      requires Valid()
      modifies players[0], players[1], ball, score
      ensures Valid()
      ensures State() == Tick(old(State()), input, width, height)
    {
      if input.w {
        players[0].UpdateFromMove(Up, height);
      } else if input.s {
        players[0].UpdateFromMove(Down, height);
      }

      if input.up {
        players[1].UpdateFromMove(Up, height);
      } else if input.down {
        players[1].UpdateFromMove(Down, height);
      }

      ball.Update(players[0], players[1], height);

      if LeftPlayerGoal(ball.State()) {
        score[1] := score[1] + 1;
        ball.Reset(width, height, input.serveXSpeed, input.serveYSpeed);
      } else if RightPlayerGoal(ball.State(), width) {
        score[0] := score[0] + 1;
        ball.Reset(width, height, input.serveXSpeed, input.serveYSpeed);
      }
    }
  }
}
