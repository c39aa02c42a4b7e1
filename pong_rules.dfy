/**
 The game logic of pong.c as pure functions: where a paddle is drawn, whether the ball
 strikes it and where, what scoring a point does, and one frame of ball movement.
 Floating-point quantities are reals; `tan(angle)`, the elapsed frame time and the
 value of `drand48()` are parameters.
 */
module PongRules {

  const PI: real := 3.14159265358979323846
  const BALL_WIDTH: real := 0.025
  const PADDLE_HEIGHT: real := 0.15
  const PADDLE_WIDTH: real := 0.025
  const MAX_DEFLECT: real := 75.0
  const MAX_PHONE_ANGLE: real := 75.0

  /** A score at which the match starts over. */
  const WIN_SCORE: int := 10
  /** What every paddle strike takes off `speed`. */
  const SPEED_STEP: real := 0.02
  /** How far past the centre line the ball leaves the playfield. */
  const OUT_X: real := 1.3

  /** `ball_info`: the direction is -1 for left and 1 for right; (x, y) is the top left corner. */
  datatype Ball = Ball(direction: int, angle: real, x: real, y: real)

  /** The game's global state: `speed`, `paused`, the phone angles, the scores and `ball_info`. */
  datatype Match = Match(
    speed: real,
    paused: bool,
    p1Angle: int,
    p2Angle: int,
    p1Score: int,
    p2Score: int,
    ball: Ball)

  /** The result of `paddle_collision`: the `collides` flag and the returned value. */
  datatype Strike = Strike(collides: bool, factor: real)

  /** The ball where `reset_ball` puts it, with `r` the value drawn from `drand48()`. */
  function ServeBall(direction: int, r: real): (b: Ball)
    ensures b.direction == direction && b.x == -BALL_WIDTH / 2.0 && b.y == 0.5 + BALL_WIDTH / 2.0
    ensures 0.0 <= r < 1.0 ==> 0.0 <= b.angle < PI / 2.0
  {
    Ball(direction, r * (PI / 2.0), -BALL_WIDTH / 2.0, 0.5 + BALL_WIDTH / 2.0)
  }

  /** The state the program starts in. */
  const INITIAL: Match :=
    Match(1.0, true, 30, 30, 0, 0, Ball(-1, 0.0, -BALL_WIDTH / 2.0, 0.5 + BALL_WIDTH / 2.0))

  /** How far up the bottom of a paddle is drawn for a phone angle (`*_paddle_translate`). */
  function PaddleOffset(angle: int): (o: real)
    ensures 0 <= angle <= 75 ==> 0.0 <= o <= 1.0 - PADDLE_HEIGHT
    ensures angle > 75 ==> o > 1.0 - PADDLE_HEIGHT
    ensures angle < 0 ==> o < 0.0
  {
    angle as real * ((1.0 - PADDLE_HEIGHT) / MAX_PHONE_ANGLE)
  }

  lemma PaddleOffsetEnds()
    ensures PaddleOffset(0) == 0.0
    ensures PaddleOffset(75) == 1.0 - PADDLE_HEIGHT
  {
  }

  /** The offset is linear in the angle, so its slope is the same everywhere and nothing is clamped. */
  lemma PaddleOffsetLinear(a: int, b: int)
    ensures PaddleOffset(a + b) == PaddleOffset(a) + PaddleOffset(b)
    ensures PaddleOffset(a) == a as real * PaddleOffset(1)
  {
  }

  lemma PaddleOffsetMonotone(a: int, b: int)
    requires a <= b
    ensures PaddleOffset(a) <= PaddleOffset(b)
    ensures a < b ==> PaddleOffset(a) < PaddleOffset(b)
  {
  }

  /** The unclamped strike offset computed by `paddle_collision`, as written there. */
  function RawOffset(y: real, lowerY: real): (x: real)
    ensures x == 0.0 <==> y == (lowerY + PADDLE_HEIGHT) / 2.0 + BALL_WIDTH / 2.0
    ensures x > 1.0 <==> y > lowerY / 2.0 + PADDLE_HEIGHT + BALL_WIDTH / 2.0
    ensures x < -1.0 <==> y < lowerY / 2.0 + BALL_WIDTH / 2.0
  {
    ((y - BALL_WIDTH / 2.0) - (lowerY + PADDLE_HEIGHT) / 2.0) / (0.5 * PADDLE_HEIGHT)
  }

  /** The vertical span a ball's `y_pos` must lie in to strike a paddle whose bottom is at `lowerY`. */
  predicate InSpan(y: real, lowerY: real) {
    lowerY <= y <= lowerY + PADDLE_HEIGHT + BALL_WIDTH
  }

  /** `paddle_collision(lower_y, &collides)` with `y` the ball's current `y_pos`. */
  function PaddleCollision(y: real, lowerY: real): (s: Strike)
    ensures s.collides <==> InSpan(y, lowerY)
    ensures !s.collides ==> s.factor == 0.0
    ensures -1.0 <= s.factor <= 1.0
    ensures s.collides && -1.0 <= RawOffset(y, lowerY) <= 1.0 ==> s.factor == RawOffset(y, lowerY)
    ensures s.collides && RawOffset(y, lowerY) < -1.0 ==> s.factor == -1.0
    ensures s.collides && RawOffset(y, lowerY) > 1.0 ==> s.factor == 1.0
  {
    if y >= lowerY && y <= lowerY + PADDLE_HEIGHT + BALL_WIDTH then
      var x := RawOffset(y, lowerY);
      var x := if x < -1.0 then -1.0 else x;
      var x := if x > 1.0 then 1.0 else x;
      Strike(true, x)
    else
      Strike(false, 0.0)
  }

  /**
   The offset subtracts (lower_y + PADDLE_HEIGHT) / 2 where the paddle's centre is
   lower_y + PADDLE_HEIGHT / 2: once the paddle's bottom is at 0.325 or higher, every strike
   returns +1, wherever on the paddle the ball lands.
   */
  lemma HighPaddleStrikesSaturate(y: real, lowerY: real)
    requires 0.325 <= lowerY && InSpan(y, lowerY)
    ensures PaddleCollision(y, lowerY) == Strike(true, 1.0)
  {
    assert RawOffset(y, lowerY) >= 1.0;
  }

  /** For a phone angle of 29 or more (the default 30 among them) every strike returns +1. */
  lemma SaturatingAngles(angle: int, y: real)
    requires 29 <= angle && InSpan(y, PaddleOffset(angle))
    ensures PaddleCollision(y, PaddleOffset(angle)) == Strike(true, 1.0)
  {
    PaddleOffsetMonotone(29, angle);
    HighPaddleStrikesSaturate(y, PaddleOffset(angle));
  }

  /** Raising the paddle and the ball together by `d` changes the offset as written by `d / PADDLE_HEIGHT`. */
  lemma RawOffsetShifts(y: real, lowerY: real, d: real)
    ensures RawOffset(y + d, lowerY + d) == RawOffset(y, lowerY) + d / PADDLE_HEIGHT
  {
  }

  /** `x` limited to [-1, 1], as `paddle_collision` limits its offset. */
  function Clamp(x: real): (c: real)
    ensures -1.0 <= c <= 1.0
    ensures -1.0 <= x <= 1.0 ==> c == x
    ensures x < -1.0 ==> c == -1.0
    ensures x > 1.0 ==> c == 1.0
  {
    if x < -1.0 then -1.0 else if x > 1.0 then 1.0 else x
  }

  /**
   The strike offset measured from the paddle's centre lower_y + PADDLE_HEIGHT / 2: -1 where
   the ball's bottom meets the paddle's bottom, 0 at the centre, +1 at the paddle's top.
   */
  function CentredOffset(y: real, lowerY: real): (x: real)
    ensures x == 0.0 <==> y - BALL_WIDTH / 2.0 == lowerY + PADDLE_HEIGHT / 2.0
    ensures x == -1.0 <==> y - BALL_WIDTH / 2.0 == lowerY
    ensures x == 1.0 <==> y - BALL_WIDTH / 2.0 == lowerY + PADDLE_HEIGHT
  {
    ((y - BALL_WIDTH / 2.0) - (lowerY + PADDLE_HEIGHT / 2.0)) / (0.5 * PADDLE_HEIGHT)
  }

  /**
   `paddle_collision` with the offset measured from the paddle's centre: the same hits and
   misses as the code, a value in [-1, 1], and the code's value for a paddle at the bottom.
   */
  function PaddleCollisionCentred(y: real, lowerY: real): (s: Strike)
    ensures s.collides == PaddleCollision(y, lowerY).collides
    ensures -1.0 <= s.factor <= 1.0
    ensures !s.collides ==> s == PaddleCollision(y, lowerY)
    ensures lowerY == 0.0 ==> s == PaddleCollision(y, lowerY)
  {
    if InSpan(y, lowerY) then Strike(true, Clamp(CentredOffset(y, lowerY))) else Strike(false, 0.0)
  }

  /** The centred offset depends only on where the ball is relative to the paddle. */
  lemma CentredOffsetShifts(y: real, lowerY: real, d: real)
    ensures CentredOffset(y + d, lowerY + d) == CentredOffset(y, lowerY)
  {
  }

  /** At every paddle height, the centred strike spreads over -1, 0 and +1 from bottom to top. */
  lemma CentredStrikesSpread(lowerY: real)
    ensures PaddleCollisionCentred(lowerY + BALL_WIDTH / 2.0, lowerY) == Strike(true, -1.0)
    ensures PaddleCollisionCentred(lowerY + PADDLE_HEIGHT / 2.0 + BALL_WIDTH / 2.0, lowerY) == Strike(true, 0.0)
    ensures PaddleCollisionCentred(lowerY + PADDLE_HEIGHT + BALL_WIDTH / 2.0, lowerY) == Strike(true, 1.0)
  {
  }

  /** `reset_ball(direction)`: a point for the side the ball did not leave by, then a new serve. */
  function Scored(m: Match, direction: int, r: real): (n: Match)
    requires 0.0 <= r < 1.0
    ensures var won1 := if direction == -1 then 0 else 1;
            var won2 := 1 - won1;
            var over := m.p1Score + won1 >= WIN_SCORE || m.p2Score + won2 >= WIN_SCORE;
            (over ==> n.p1Score == 0 && n.p2Score == 0 && n.paused) &&
            (!over ==> n.p1Score == m.p1Score + won1 && n.p2Score == m.p2Score + won2 && n.paused == m.paused)
    ensures n.speed == 1.0 && n.ball == ServeBall(direction, r)
    ensures 0.0 <= n.ball.angle < PI / 2.0
    ensures n.p1Angle == m.p1Angle && n.p2Angle == m.p2Angle
  {
    var s1 := if direction == -1 then m.p1Score else m.p1Score + 1;
    var s2 := if direction == -1 then m.p2Score + 1 else m.p2Score;
    var over := s1 >= WIN_SCORE || s2 >= WIN_SCORE;
    m.(speed := 1.0,
       paused := if over then true else m.paused,
       p1Score := if over then 0 else s1,
       p2Score := if over then 0 else s2,
       ball := ServeBall(direction, r))
  }

  predicate ScoresInRange(m: Match) {
    0 <= m.p1Score < WIN_SCORE && 0 <= m.p2Score < WIN_SCORE
  }

  /** Scores that start in [0, 9] stay in [0, 9], whichever side scores. */
  lemma ScoredKeepsRange(m: Match, direction: int, r: real)
    requires 0.0 <= r < 1.0 && ScoresInRange(m)
    ensures ScoresInRange(Scored(m, direction, r))
  {
  }

  /** Scoring only reads the scores, the pause flag and the phone angles of the state before it. */
  lemma ScoredIgnoresBall(m: Match, n: Match, direction: int, r: real)
    requires 0.0 <= r < 1.0
    requires m.paused == n.paused && m.p1Score == n.p1Score && m.p2Score == n.p2Score
    requires m.p1Angle == n.p1Angle && m.p2Angle == n.p2Angle
    ensures Scored(m, direction, r) == Scored(n, direction, r)
  {
  }

  /** The top or bottom wall is hit. */
  predicate WallHit(nextY: real) {
    nextY >= 1.0 || nextY <= BALL_WIDTH
  }

  /** The left paddle is tested: the ball reaches its band, or jumps past it this frame. */
  predicate LeftBand(x: real, nextX: real) {
    (nextX - BALL_WIDTH >= -1.0 && nextX - BALL_WIDTH <= -1.0 + PADDLE_WIDTH)
    || (x >= -1.0 + PADDLE_WIDTH && nextX <= -1.0)
  }

  /** The right paddle is tested: the ball reaches its band, or jumps past it this frame. */
  predicate RightBand(x: real, nextX: real) {
    (nextX >= 1.0 - PADDLE_WIDTH && nextX <= 1.0)
    || (x <= 1.0 - PADDLE_WIDTH && nextX >= 1.0)
  }

  /** No single frame tests both paddles. */
  lemma BandsExclusive(x: real, nextX: real)
    ensures !(LeftBand(x, nextX) && RightBand(x, nextX))
  {
  }

  /** `next_x`, computed once per frame from the elapsed time since the last frame. */
  function NextX(m: Match, elapsed: real): (nx: real)
    requires m.speed != 0.0
    ensures (nx - m.ball.x) * m.speed == m.ball.direction as real * elapsed
  {
    m.ball.x + m.ball.direction as real * (elapsed / m.speed)
  }

  /** `next_y`, computed once per frame; `tanAngle` is `tan(ball_info.angle)` at the frame's start. */
  function NextY(m: Match, elapsed: real, tanAngle: real): (ny: real)
    requires m.speed != 0.0
    ensures m.ball.direction * m.ball.direction == 1 ==> (ny - m.ball.y) * m.speed == elapsed * tanAngle
  {
    var deltaX := m.ball.direction as real * (elapsed / m.speed);
    m.ball.y + m.ball.direction as real * deltaX * tanAngle
  }

  /** The left paddle is tested and struck this frame. */
  predicate LeftHit(m: Match, nextX: real) {
    LeftBand(m.ball.x, nextX) && PaddleCollision(m.ball.y, PaddleOffset(m.p1Angle)).collides
  }

  /** The right paddle is tested and struck this frame. */
  predicate RightHit(m: Match, nextX: real) {
    RightBand(m.ball.x, nextX) && PaddleCollision(m.ball.y, PaddleOffset(m.p2Angle)).collides
  }

  /** A paddle strike: slower `speed` divisor, the given direction, and a slope from the strike offset. */
  function Deflected(m: Match, direction: int, lowerY: real): (n: Match)
    ensures n.speed == m.speed - SPEED_STEP && n.ball.direction == direction
    ensures -MAX_DEFLECT <= n.ball.angle <= MAX_DEFLECT
    ensures n.(speed := m.speed, ball := m.ball) == m
    ensures n.ball.(direction := m.ball.direction, angle := m.ball.angle) == m.ball
  {
    m.(speed := m.speed - SPEED_STEP,
       ball := m.ball.(direction := direction,
                       angle := PaddleCollision(m.ball.y, lowerY).factor * MAX_DEFLECT))
  }

  /** The frame up to the commit: wall test, left paddle test, right paddle test, then the move. */
  function Struck(m: Match, nx: real, ny: real): (n: Match)
    ensures n.ball.x == nx && n.ball.y == ny
    ensures n.paused == m.paused && n.p1Angle == m.p1Angle && n.p2Angle == m.p2Angle
    ensures n.p1Score == m.p1Score && n.p2Score == m.p2Score
    ensures n.speed == if LeftHit(m, nx) || RightHit(m, nx) then m.speed - SPEED_STEP else m.speed
  {
    BandsExclusive(m.ball.x, nx);
    var walled := Walled(m, ny);
    var left := if LeftHit(m, nx) then Deflected(walled, 1, PaddleOffset(m.p1Angle)) else walled;
    var right := if RightHit(m, nx) then Deflected(left, -1, PaddleOffset(m.p2Angle)) else left;
    right.(ball := right.ball.(x := nx, y := ny))
  }

  /** The wall test: `angle := PI - angle` and nothing else. */
  function Walled(m: Match, ny: real): (n: Match)
    ensures WallHit(ny) ==> n.ball.angle == PI - m.ball.angle
    ensures n.ball.(angle := m.ball.angle) == m.ball && n.(ball := m.ball) == m
    ensures !WallHit(ny) ==> n == m
  {
    if WallHit(ny) then m.(ball := m.ball.(angle := PI - m.ball.angle)) else m
  }

  /**
   The ball-step section of `display`: with `next_x`/`next_y` computed once, test the walls,
   then the left paddle, then the right paddle, commit the ball to (`next_x`, `next_y`), then
   test both ends of the field.
   */
  function Advance(m: Match, elapsed: real, tanAngle: real, r: real): (n: Match)
    requires m.speed != 0.0 && 0.0 <= r < 1.0
    ensures var nx := NextX(m, elapsed);
            var ny := NextY(m, elapsed, tanAngle);
            && n.p1Angle == m.p1Angle && n.p2Angle == m.p2Angle
            && (nx <= -OUT_X ==> n == Scored(m, -1, r))
            && (nx >= OUT_X ==> n == Scored(m, 1, r))
            && (-OUT_X < nx < OUT_X ==>
                  && n.ball.x == nx && n.ball.y == ny
                  && n.p1Score == m.p1Score && n.p2Score == m.p2Score && n.paused == m.paused)
            && (-OUT_X < nx < OUT_X && LeftHit(m, nx) ==>
                  && n.speed == m.speed - SPEED_STEP && n.ball.direction == 1
                  && n.ball.angle == PaddleCollision(m.ball.y, PaddleOffset(m.p1Angle)).factor * MAX_DEFLECT)
            && (-OUT_X < nx < OUT_X && RightHit(m, nx) ==>
                  && n.speed == m.speed - SPEED_STEP && n.ball.direction == -1
                  && n.ball.angle == PaddleCollision(m.ball.y, PaddleOffset(m.p2Angle)).factor * MAX_DEFLECT)
            && (-OUT_X < nx < OUT_X && !LeftHit(m, nx) && !RightHit(m, nx) ==>
                  && n.speed == m.speed && n.ball.direction == m.ball.direction
                  && n.ball.angle == (if WallHit(ny) then PI - m.ball.angle else m.ball.angle))
  {
    var nx := NextX(m, elapsed);
    var ny := NextY(m, elapsed, tanAngle);
    var moved := Struck(m, nx, ny);
    ScoredIgnoresBall(moved, m, -1, r);
    ScoredIgnoresBall(moved, m, 1, r);
    var out1 := if nx <= -OUT_X then Scored(moved, -1, r) else moved;
    if nx >= OUT_X then Scored(out1, 1, r) else out1
  }

  /** A frame keeps the scores in [0, 9]. */
  lemma AdvanceKeepsRange(m: Match, elapsed: real, tanAngle: real, r: real)
    requires m.speed != 0.0 && 0.0 <= r < 1.0 && ScoresInRange(m)
    ensures ScoresInRange(Advance(m, elapsed, tanAngle, r))
  {
    var nx := NextX(m, elapsed);
    if nx <= -OUT_X {
      ScoredKeepsRange(m, -1, r);
    } else if nx >= OUT_X {
      ScoredKeepsRange(m, 1, r);
    }
  }

  /** Between two points every paddle strike lowers `speed` by exactly `SPEED_STEP`. */
  lemma StrikeSlowsDivisor(m: Match, elapsed: real, tanAngle: real, r: real)
    requires m.speed != 0.0 && 0.0 <= r < 1.0
    requires -OUT_X < NextX(m, elapsed) < OUT_X
    ensures var n := Advance(m, elapsed, tanAngle, r);
            n.speed == if LeftHit(m, NextX(m, elapsed)) || RightHit(m, NextX(m, elapsed))
                       then m.speed - SPEED_STEP else m.speed
  {
    BandsExclusive(m.ball.x, NextX(m, elapsed));
  }

  /** The point-scored scenario: a ball moving left past -1.3 gives player 2 a point and a new serve. */
  lemma LeftExitScenario(r: real)
    requires 0.0 <= r < 1.0
    ensures var m := INITIAL.(paused := false, ball := INITIAL.ball.(x := -1.29));
            var n := Advance(m, 0.01, 0.0, r);
            n.p1Score == 0 && n.p2Score == 1 && n.ball.x == -BALL_WIDTH / 2.0 && n.speed == 1.0
            && n.ball.direction == -1 && !n.paused
  {
    var m := INITIAL.(paused := false, ball := INITIAL.ball.(x := -1.29));
    assert NextX(m, 0.01) == -1.3;
  }

  /** How far a ball served from the centre can travel before a single step takes it out of the field. */
  const SERVE_REACH: real := OUT_X - BALL_WIDTH / 2.0

  /**
   One pass of `main`'s loop after the socket exchange, with the clock `last_drawn_at`: a
   paused game draws nothing and leaves the clock alone; a running one takes the ball step
   for the time since the last drawn frame (`now` is the time `display` reads) and then
   sets the clock to `drawnAt`, the time read after the frame.
   */
  function Tick(m: Match, lastDrawnAt: real, now: real, drawnAt: real, tanAngle: real, r: real): (t: (Match, real))
    requires (!m.paused ==> m.speed != 0.0) && 0.0 <= r < 1.0
    ensures t.0.p1Angle == m.p1Angle && t.0.p2Angle == m.p2Angle
    ensures ScoresInRange(m) ==> ScoresInRange(t.0)
    ensures t.1 != lastDrawnAt ==> !m.paused && t.1 == drawnAt
  {
    if m.paused then (m, lastDrawnAt)
    else
      var n := Advance(m, now - lastDrawnAt, tanAngle, r);
      assert ScoresInRange(m) ==> ScoresInRange(n) by {
        if ScoresInRange(m) {
          AdvanceKeepsRange(m, now - lastDrawnAt, tanAngle, r);
        }
      }
      (n, drawnAt)
  }

  /**
   As written, the clock does not move while the game is paused, so the first frame after a
   pause moves the ball by the whole time since the last drawn frame: a serve that waited
   longer than `SERVE_REACH` leaves the field at once and player 2 gets the point,
   whatever happened while paused.
   */
  lemma ResumeAfterPauseScores(m: Match, lastDrawnAt: real, waited: real, now: real, drawnAt: real, tanAngle: real, r: real)
    requires m.paused && m.speed == 1.0 && m.ball.x == -BALL_WIDTH / 2.0 && m.ball.direction == -1
    requires ScoresInRange(m) && m.p2Score + 1 < WIN_SCORE && 0.0 <= r < 1.0
    requires now - lastDrawnAt >= SERVE_REACH
    ensures var idle := Tick(m, lastDrawnAt, waited, drawnAt, tanAngle, r);
            var resumed := Tick(idle.0.(paused := false), idle.1, now, drawnAt, tanAngle, r).0;
            && idle.1 == lastDrawnAt
            && resumed.p2Score == m.p2Score + 1 && resumed.p1Score == m.p1Score
  {
    var started := m.(paused := false);
    assert NextX(started, now - lastDrawnAt) <= -OUT_X;
  }

  /** The game's first frame after the start command, when the start came 1.3 time units after the clock was set. */
  lemma OpeningPointScenario(r: real)
    requires 0.0 <= r < 1.0
    ensures var n := Tick(INITIAL.(paused := false), 0.0, 1.3, 1.3, 0.0, r).0;
            n.p1Score == 0 && n.p2Score == 1
  {
    ResumeAfterPauseScores(INITIAL, 0.0, 0.0, 1.3, 1.3, 0.0, r);
  }

  /**
   The loop pass with the clock kept in step while paused: the paused branch sets it to the
   time of the pass, as the drawing branch does after its frame.
   */
  function TickResync(m: Match, lastDrawnAt: real, now: real, drawnAt: real, tanAngle: real, r: real): (t: (Match, real))
    requires (!m.paused ==> m.speed != 0.0) && 0.0 <= r < 1.0
    ensures t.0 == Tick(m, lastDrawnAt, now, drawnAt, tanAngle, r).0
    ensures m.paused ==> t.1 == now
    ensures !m.paused ==> t.1 == drawnAt
  {
    if m.paused then (m, now) else Tick(m, lastDrawnAt, now, drawnAt, tanAngle, r)
  }

  /**
   With the clock kept in step, the first frame after a pause moves the ball only by the time
   since the last paused pass, however long the pause was: a serve resumed within
   `SERVE_REACH` of that pass stays in play and no one scores.
   */
  lemma ResyncedResumeStaysInPlay(m: Match, lastDrawnAt: real, waited: real, now: real, drawnAt: real, tanAngle: real, r: real)
    requires m.paused && m.speed == 1.0 && m.ball.x == -BALL_WIDTH / 2.0
    requires m.ball.direction == -1 || m.ball.direction == 1
    requires 0.0 <= r < 1.0 && 0.0 <= now - waited < SERVE_REACH
    ensures var idle := TickResync(m, lastDrawnAt, waited, drawnAt, tanAngle, r);
            var resumed := TickResync(idle.0.(paused := false), idle.1, now, drawnAt, tanAngle, r).0;
            && idle.1 == waited
            && resumed.p1Score == m.p1Score && resumed.p2Score == m.p2Score && !resumed.paused
            && resumed.ball.x == m.ball.x + m.ball.direction as real * (now - waited)
  {
    var started := m.(paused := false);
    assert NextX(started, now - waited) == m.ball.x + m.ball.direction as real * (now - waited);
  }
}
