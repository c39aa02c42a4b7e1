/**
 The game process of pong.c as an object: its globals (`speed`, `paused`, the phone angles,
 the scores, `ball_info` and the clock `last_drawn_at`) are fields, `msg` is the 16-byte buffer `main` sends from and
 receives into, and `reset_ball`, the ball step of `display`, `keyboard` and the socket
 exchange of `main`'s loop are methods that change them in the order the C code does.
 */
module PongGame {
  import opened PongRules
  import opened PongProtocol

  /** GLFW's key and action codes that `keyboard` tests. */
  const GLFW_PRESS: int := 1
  const GLFW_KEY_SPACE: int := 32
  const GLFW_KEY_Q: int := 81
  const GLFW_KEY_ESCAPE: int := 256

  class Game {
    var speed: real
    var paused: bool
    var p1Angle: int
    var p2Angle: int
    var p1Score: int
    var p2Score: int
    var ball: Ball
    var lastDrawnAt: real
    const msg: array<char>

    /** The buffer has `main`'s size and no score has reached the match threshold. */
    ghost predicate Valid()
      reads this
    {
      msg.Length == MSG_SIZE && 0 <= p1Score < WIN_SCORE && 0 <= p2Score < WIN_SCORE
    }

    function State(): Match
      reads this
    {
      Match(speed, paused, p1Angle, p2Angle, p1Score, p2Score, ball)
    }

    /**
     The globals' initial values; `buffer` stands for whatever `msg` holds before the first
     `sprintf` and `startTime` for the time `main` reads before its first frame.
     */
    constructor (buffer: seq<char>, startTime: real)
      requires |buffer| == MSG_SIZE
      ensures Valid() && State() == INITIAL && lastDrawnAt == startTime
      ensures fresh(msg) && msg[..] == buffer
    {
      lastDrawnAt := startTime;
      speed := 1.0;
      paused := true;
      p1Angle, p2Angle := 30, 30;
      p1Score, p2Score := 0, 0;
      ball := Ball(-1, 0.0, -BALL_WIDTH / 2.0, 0.5 + BALL_WIDTH / 2.0);
      msg := new char[MSG_SIZE](i requires 0 <= i < MSG_SIZE => buffer[i]);
    }

    /** `reset_ball(direction)`, with `r` the value `drand48()` returns. */
    method ResetBall(direction: int, r: real)
      requires Valid() && 0.0 <= r < 1.0
      modifies this
      ensures Valid() && State() == Scored(old(State()), direction, r)
      ensures lastDrawnAt == old(lastDrawnAt)
    {
      if direction == -1 {
        p2Score := p2Score + 1;
      } else {
        p1Score := p1Score + 1;
      }
      if p1Score >= WIN_SCORE || p2Score >= WIN_SCORE {
        paused := true;
        p1Score, p2Score := 0, 0;
      }
      speed := 1.0;
      ball := ball.(direction := direction);
      ball := ball.(angle := r * (PI / 2.0));
      ball := ball.(x := -BALL_WIDTH / 2.0);
      ball := ball.(y := 0.5 + BALL_WIDTH / 2.0);
    }

    /**
     The ball step of `display`: `elapsed` is `glfwGetTime() - last_drawn_at`, `tanAngle` is
     `tan(ball_info.angle)` and `r` is what a `reset_ball` in this frame draws from `drand48()`.
     */
    method Step(elapsed: real, tanAngle: real, r: real)
      requires Valid() && speed != 0.0 && 0.0 <= r < 1.0
      modifies this
      ensures Valid() && State() == Advance(old(State()), elapsed, tanAngle, r)
      ensures lastDrawnAt == old(lastDrawnAt)
    {
      ghost var start := State();
      var deltaTime := elapsed / speed;
      var deltaX := ball.direction as real * deltaTime;
      var deltaY := ball.direction as real * deltaX * tanAngle;
      var nextX := ball.x + deltaX;
      var nextY := ball.y + deltaY;
      assert nextX == NextX(start, elapsed) && nextY == NextY(start, elapsed, tanAngle);

      Bounce(nextX, nextY);
      ScoredIgnoresBall(State(), start, -1, r);
      ScoredIgnoresBall(State(), start, 1, r);

      if nextX <= -OUT_X {
        ResetBall(-1, r);
      }

      if nextX >= OUT_X {
        ResetBall(1, r);
      }
    }

    /**
     The part of the ball step between computing (`next_x`, `next_y`) and the end-of-field
     tests: the wall test, the left paddle test, the right paddle test and the commit.
     */
    method Bounce(nextX: real, nextY: real)
      requires Valid()
      modifies this
      ensures Valid() && State() == Struck(old(State()), nextX, nextY)
      ensures lastDrawnAt == old(lastDrawnAt)
    {
      ghost var start := State();
      var leftPaddleTranslate := PaddleOffset(p1Angle);
      var rightPaddleTranslate := PaddleOffset(p2Angle);

      if nextY >= 1.0 || nextY <= BALL_WIDTH {
        ball := ball.(angle := PI - ball.angle);
      }
      ghost var walled := State();
      assert walled == Walled(start, nextY);

      if (nextX - BALL_WIDTH >= -1.0 && nextX - BALL_WIDTH <= -1.0 + PADDLE_WIDTH)
         || (ball.x >= -1.0 + PADDLE_WIDTH && nextX <= -1.0)
      {
        var strike := PaddleCollision(ball.y, leftPaddleTranslate);
        if strike.collides {
          speed := speed - SPEED_STEP;
          ball := ball.(direction := 1);
          ball := ball.(angle := strike.factor * MAX_DEFLECT);
        }
      }
      ghost var left := State();
      assert left == if LeftHit(start, nextX) then Deflected(walled, 1, PaddleOffset(start.p1Angle)) else walled;

      if (nextX >= 1.0 - PADDLE_WIDTH && nextX <= 1.0)
         || (ball.x <= 1.0 - PADDLE_WIDTH && nextX >= 1.0)
      {
        var strike := PaddleCollision(ball.y, rightPaddleTranslate);
        if strike.collides {
          speed := speed - SPEED_STEP;
          ball := ball.(direction := -1);
          ball := ball.(angle := strike.factor * MAX_DEFLECT);
        }
      }
      assert State() == if RightHit(start, nextX) then Deflected(left, -1, PaddleOffset(start.p2Angle)) else left;

      ball := ball.(x := nextX);
      ball := ball.(y := nextY);
    }

    /**
     The `display` call before `main`'s loop, drawn whether or not the game is paused; `now`
     is the time it reads. The clock is not set after it.
     */
    method Open(now: real, tanAngle: real, r: real)
      requires Valid() && speed != 0.0 && 0.0 <= r < 1.0
      modifies this
      ensures Valid() && State() == Advance(old(State()), now - old(lastDrawnAt), tanAngle, r)
      ensures lastDrawnAt == old(lastDrawnAt)
    {
      Step(now - lastDrawnAt, tanAngle, r);
    }

    /**
     One pass of the game loop after the exchange: a frame is drawn only when not paused, for
     the time `now` it reads, and the clock is then set to `drawnAt`, the time read after it.
     */
    method Frame(now: real, drawnAt: real, tanAngle: real, r: real)
      requires Valid() && (!paused ==> speed != 0.0) && 0.0 <= r < 1.0
      modifies this
      ensures Valid()
      ensures (State(), lastDrawnAt) == Tick(old(State()), old(lastDrawnAt), now, drawnAt, tanAngle, r)
    {
      if !paused {
        Step(now - lastDrawnAt, tanAngle, r);
        lastDrawnAt := drawnAt;
      }
    }

    /** `keyboard`: SPACE toggles the pause, Q and ESCAPE ask the window to close. */
    method Keyboard(key: int, action: int) returns (close: bool)
      requires Valid()
      modifies this
      ensures Valid()
      ensures action == GLFW_PRESS && key == GLFW_KEY_SPACE
              ==> State() == old(State()).(paused := !old(paused))
      ensures !(action == GLFW_PRESS && key == GLFW_KEY_SPACE) ==> State() == old(State())
      ensures close <==> action == GLFW_PRESS && (key == GLFW_KEY_Q || key == GLFW_KEY_ESCAPE)
      ensures lastDrawnAt == old(lastDrawnAt)
    {
      close := false;
      if action != GLFW_PRESS {
        return;
      }
      if key == GLFW_KEY_SPACE {
        paused := !paused;
      } else if key == GLFW_KEY_Q || key == GLFW_KEY_ESCAPE {
        close := true;
      }
    }

    /** `sprintf(msg, "%d,%d", p1_score, p2_score)` and the `strlen(msg)` bytes that `send` writes. */
    method SendScores() returns (sent: string)
      requires Valid()
      modifies msg
      ensures sent == ScoreText(p1Score, p2Score) && |sent| < MSG_SIZE
      ensures msg[..] == Overwrite(old(msg[..]), sent + ['\0'])
      ensures CString(msg[..]) == sent
    {
      var text := ScoreText(p1Score, p2Score);
      var out := text + ['\0'];
      forall i | 0 <= i < |out| {
        msg[i] := out[i];
      }
      assert msg[..] == Overwrite(old(msg[..]), out);
      assert msg[..][..|text|] == text;
      CStringOfPlain(text);
      sent := text;
    }

    /**
     The receive branch of `main`'s loop for the bytes `recv` returned. No bytes means the
     program reports an error and exits (`fatal`); a leading 's' starts the game; anything
     else is cut to 7 bytes and parsed as "p:%d,%d" into the two angles.
     */
    method Receive(data: seq<char>) returns (fatal: bool)
      requires Valid() && |data| <= MSG_SIZE
      modifies this, msg
      ensures Valid()
      ensures fatal <==> data == []
      ensures lastDrawnAt == old(lastDrawnAt)
      ensures fatal ==> State() == old(State()) && msg[..] == old(msg[..])
      ensures !fatal && data[0] == 's' ==>
                State() == old(State()).(paused := false)
                && msg[..] == Overwrite(old(msg[..]), data)
      ensures !fatal && data[0] != 's' ==>
                (p1Angle, p2Angle) == ScanAngles(AngleText(old(msg[..]), data), old(p1Angle), old(p2Angle))
                && State() == old(State()).(p1Angle := p1Angle, p2Angle := p2Angle)
                && msg[..] == Overwrite(old(msg[..]), data)[CUT := '\0']
    {
      if |data| == 0 {
        return true;
      }
      fatal := false;
      forall i | 0 <= i < |data| {
        msg[i] := data[i];
      }
      assert msg[..] == Overwrite(old(msg[..]), data);
      if msg[0] == 's' {
        paused := false;
      } else {
        ghost var received := msg[..];
        msg[CUT] := '\0';
        assert msg[..] == received[CUT := '\0'];
        CStringCut(received, CUT);
        var text := CString(msg[..]);
        var parsed := ScanAngles(text, p1Angle, p2Angle);
        p1Angle, p2Angle := parsed.0, parsed.1;
      }
    }
  }
}
