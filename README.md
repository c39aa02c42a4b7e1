# Pong with phone paddles: game logic and relay protocol

This project models the two programs of the two-phone pong game.

- **The game** (`opengl_game/pong.c`):
  - `reset_ball` gives a point to the side the ball did not leave by, ends a match at 10 and serves a new ball.
  - The paddle-translate formula turns a phone angle into a paddle height.
  - `paddle_collision` tests the ball's height against a paddle and returns a strike offset clamped to [-1, 1].
  - The ball step of `display` does the following, using one `next_x`/`next_y`:
    1. the wall test;
    2. the left paddle test;
    3. the right paddle test;
    4. the commit;
    5. the two out-of-field tests.
  - `keyboard` toggles the pause and asks to close the window.
  - `main`'s exchange works on the 16-byte `msg` buffer:
    - it sends `"%d,%d"` scores;
    - a received `s` starts the game;
    - anything else is cut to 7 bytes and read with `sscanf("p:%d,%d")`.
- **The relay** (`node_server/server.js`):
  - `format_angle`;
  - the two player slots filled in connection order, with a third connection refused with code 1013;
  - the `message` handler's `start`/`angle` switch, where `start` falls through to the angle update;
  - the `close` handler;
  - the socket `data` handler, which stores the score parts, writes the one-shot `"s"`, then `p:AA,BB`.

The model has seven modules:
- `Wrappers`: the `Option` type, for JavaScript's `undefined` and for failed conversions.
- `Text`: decimal digits. It is what `%d` and JavaScript's number-to-string write, and what `%d` and `Number()` read.
- `PongRules`: the game's logic as pure functions over a `Match` value.
- `PongProtocol`: the socket text. It covers `sprintf`, a `recv` that overwrites only the start of the buffer, C strings, and `sscanf` per section 7.21.6.2 of ISO C11. Failed conversions keep the old angle.
- `PongGame`: a class `Game` whose fields are the C globals (the clock `last_drawn_at` among them) and whose `msg` is an `array<char>` of 16. Each method except `Keyboard` is proved to produce the state the matching `PongRules`/`PongProtocol` function gives; `Keyboard`'s contract states its new state directly.
- `Relay`: the relay's handlers as transition functions on `RelayState`. The classes `Player` and `Server` update `p1`, `p2` and `should_start` in place, and are proved to follow those functions.
- `Wire`: the two programs put together:
  - for non-negative angles, the relay's angle message is parsed by the game back into the angles (modulo 100); `Relay.FormatAngleNegative` says what a negative angle is formatted as;
  - the game's score report is split by the relay back into the two scores.

Floating-point values are reals. Three quantities are parameters of the operations:
- the times `glfwGetTime()` returns (the ball step uses the time `display` reads minus `last_drawn_at`);
- `tan(ball_info.angle)`;
- the value `drand48()` returns (any `r` with `0 <= r < 1`).

Notes on what the code does where its own comments or names suggest otherwise:
- **Angle range.** The comments on `p1_angle`/`p2_angle` (pong.c:27-28) say the angles are in [0, 90], but nothing clamps them: `sscanf` stores any integer and the paddle formula is linear for every angle.
- **Who scores.** `reset_ball(-1)`, called when the ball leaves on player 1's side, scores for player 2.
- **No-hit value.** The comment before `paddle_collision` (pong.c:63-66) says garbage is returned when there is no hit; the code returns 0.
- **Strike centre.** The same comment speaks of the distance from the paddle's centre, but the offset subtracts `(lower_y + PADDLE_HEIGHT) / 2`, not the centre `lower_y + PADDLE_HEIGHT / 2`. Once a paddle's bottom is at 0.325 or above (any phone angle of 29 or more, the default 30 among them) every strike gives +1 (see "## Findings").
- **Paused clock.** `last_drawn_at` is set only after a drawn frame (pong.c:386), so the first frame after a pause moves the ball by the whole time since the last drawn frame (see "## Findings").

## Model

| member | source | states |
|---|---|---|
| `PongRules.PaddleOffsetEnds` | opengl_game/pong.c:121-124 | the paddle offset is 0 at angle 0 and `1 - PADDLE_HEIGHT` at the maximum phone angle 75 |
| `PongRules.PaddleOffsetLinear` | opengl_game/pong.c:121-124 | the offset is additive in the angle and equals angle times the offset of 1: linear, with no clamping |
| `PongRules.PaddleOffsetMonotone` | opengl_game/pong.c:121-124 | a larger angle puts the paddle higher: a non-strict order, and a strict order for strictly larger angles |
| `PongRules.PaddleOffset` | opengl_game/pong.c:121-124 | angles 0..75 place the paddle's bottom in [0, 1 - PADDLE_HEIGHT]; a larger angle places it above, a negative one below 0 |
| `PongRules.RawOffset` | opengl_game/pong.c:73-75 | the offset as written is 0 exactly at height `(lower_y + PADDLE_HEIGHT)/2 + BALL_WIDTH/2`, above 1 exactly above `lower_y/2 + PADDLE_HEIGHT + BALL_WIDTH/2` and below -1 exactly below `lower_y/2 + BALL_WIDTH/2` |
| `PongRules.InSpan` | opengl_game/pong.c:69-71 | the vertical span of `y_pos` that strikes a paddle whose bottom is at `lower_y` |
| `PongRules.PaddleCollision` | opengl_game/pong.c:68-88 | `collides` holds exactly when the current `y_pos` lies in `[lower_y, lower_y + PADDLE_HEIGHT + BALL_WIDTH]`; no hit returns 0; a hit returns the raw offset when it lies in [-1, 1] and -1 or 1 when it lies below or above; the result is always in [-1, 1] |
| `PongRules.HighPaddleStrikesSaturate` | opengl_game/pong.c:73-83 | with the paddle's bottom at 0.325 or above, every strike returns exactly +1, wherever on the paddle the ball lands |
| `PongRules.SaturatingAngles` | opengl_game/pong.c:73-83 | for a phone angle of 29 or more, every strike on that paddle returns exactly +1 |
| `PongRules.RawOffsetShifts` | opengl_game/pong.c:73-75 | raising the paddle and the ball together by d changes the offset as written by d / PADDLE_HEIGHT, so it does not measure the ball's place on the paddle alone |
| `PongRules.Clamp` | opengl_game/pong.c:77-82 | the clamp gives a value in [-1, 1]: the input when it lies there, -1 below and 1 above |
| `PongRules.CentredOffset` | opengl_game/pong.c:64-65 | the intended offset is 0 exactly when the ball's bottom is at the paddle's centre, -1 exactly at the paddle's bottom and +1 exactly at its top |
| `PongRules.PaddleCollisionCentred` | opengl_game/pong.c:68-88 | the intended collision test hits and misses exactly when the code's does, gives a value in [-1, 1], and agrees with the code for a miss and for a paddle at the bottom (`lower_y` 0) |
| `PongRules.CentredOffsetShifts` | opengl_game/pong.c:64-65 | the centred offset depends only on where the ball is relative to the paddle |
| `PongRules.CentredStrikesSpread` | opengl_game/pong.c:64-65 | at every paddle height, a strike at the paddle's bottom, centre and top returns -1, 0 and +1 |
| `PongRules.Scored` | opengl_game/pong.c:45-61 | direction -1 adds 1 to player 2's score only, otherwise to player 1's only; if either score reaches 10 both become 0 and the game pauses, otherwise the pause flag is kept; speed becomes 1 and the ball is served in the given direction from the centre at angle `r * PI / 2`, which lies in [0, PI/2); the phone angles are kept |
| `PongRules.ServeBall` | opengl_game/pong.c:57-60 | the serve goes in the given direction from the centre (`-BALL_WIDTH/2`, `0.5 + BALL_WIDTH/2`), at an angle in [0, PI/2) for a `drand48` value in [0, 1) |
| `PongRules.ScoresInRange` | opengl_game/pong.c:51-54 | both scores lie in [0, 9] |
| `PongRules.ScoredKeepsRange` | opengl_game/pong.c:46-54 | scores in [0, 9] before a point are in [0, 9] after it, whichever side scores |
| `PongRules.ScoredIgnoresBall` | opengl_game/pong.c:45-61 | a point's outcome depends only on the scores, the pause flag and the phone angles, not on the ball or speed it replaces |
| `PongRules.BandsExclusive` | opengl_game/pong.c:158-172 | no frame tests both the left and the right paddle |
| `PongRules.WallHit` | opengl_game/pong.c:153 | the top or bottom wall test on `next_y` |
| `PongRules.LeftBand` | opengl_game/pong.c:158-160 | the left paddle test: the ball reaches the paddle's band or jumps past it this frame |
| `PongRules.RightBand` | opengl_game/pong.c:171-172 | the right paddle test: the ball reaches the paddle's band or jumps past it this frame |
| `PongRules.LeftHit` | opengl_game/pong.c:158-163 | the left paddle is tested and `paddle_collision` reports a hit on the current `y_pos` |
| `PongRules.RightHit` | opengl_game/pong.c:171-175 | the right paddle is tested and `paddle_collision` reports a hit on the current `y_pos` |
| `PongRules.NextX` | opengl_game/pong.c:143-149 | the horizontal move times the speed divisor is the direction times the elapsed time |
| `PongRules.NextY` | opengl_game/pong.c:143-150 | for direction -1 or 1, the vertical move times the speed divisor is the elapsed time times `tan(angle)`, whichever way the ball goes |
| `PongRules.Walled` | opengl_game/pong.c:153-155 | a wall hit sets the angle to `PI - angle` and changes nothing else; no wall hit changes nothing |
| `PongRules.Deflected` | opengl_game/pong.c:163-167 | a strike lowers speed by 0.02, sets the direction, sets an angle in [-75, 75] and changes nothing else |
| `PongRules.Struck` | opengl_game/pong.c:152-183 | after the three tests and the commit the ball is at (`next_x`, `next_y`), scores, pause and phone angles are kept, and speed drops by 0.02 exactly when a paddle was struck |
| `PongRules.Advance` | opengl_game/pong.c:142-193 | the ball step, using the one `next_x`/`next_y`: leaving past -1.3 is a point by `reset_ball(-1)` and past 1.3 by `reset_ball(1)`, taken from the state before the step; otherwise the ball is committed to (`next_x`, `next_y`) with scores and pause kept; a left hit sets direction 1, speed minus 0.02 and angle factor times 75; a right hit sets direction -1 with the same updates; with no hit, speed and direction are kept and a wall hit only reflects the angle to `PI - angle`; the phone angles never change |
| `PongRules.AdvanceKeepsRange` | opengl_game/pong.c:185-193 | a frame keeps both scores in [0, 9] |
| `PongRules.StrikeSlowsDivisor` | opengl_game/pong.c:163-179 | in a frame that stays in the field, speed drops by exactly 0.02 when a paddle is struck and is unchanged otherwise |
| `PongRules.LeftExitScenario` | opengl_game/pong.c:185-188 | a running ball at x = -1.29 moving left for 0.01 leaves the field: player 2 gets the point, and the ball is served leftwards from the centre at speed 1 |
| `PongRules.Tick` | opengl_game/pong.c:378-387 | a pass keeps the phone angles and the scores' [0, 9] range; the clock moves only when a frame is drawn, and then to the time read after the frame |
| `PongRules.ResumeAfterPauseScores` | opengl_game/pong.c:378-387 | as written, a paused pass leaves the clock alone, so a serve resumed 1.2875 or more after the last drawn frame leaves the field on the first frame and player 2 scores |
| `PongRules.OpeningPointScenario` | opengl_game/pong.c:355-387 | a start that comes 1.3 after the clock was set gives player 2 a point on the first frame |
| `PongRules.TickResync` | opengl_game/pong.c:378-387 | the intended pass leaves the game state exactly as the code's pass does; only the clock differs, set to the pass's own time while paused |
| `PongRules.ResyncedResumeStaysInPlay` | opengl_game/pong.c:378-387 | with the clock kept in step, the first frame after a pause moves the ball only by the time since the last paused pass, and a serve resumed within 1.2875 of it stays in play with no score change |
| `PongProtocol.ScoreText` | opengl_game/pong.c:359 | the `"%d,%d"` text has no NUL and no comma inside either number, and is 3 characters for single-digit scores |
| `PongProtocol.Overwrite` | opengl_game/pong.c:366 | after `recv`, the buffer holds the received bytes at its start and its old bytes after them, at the same size |
| `PongProtocol.CString` | opengl_game/pong.c:360 | the C string of a buffer is its longest NUL-free prefix: it is a prefix, has no NUL, and is followed by a NUL when shorter than the buffer |
| `PongProtocol.CStringOfPlain` | opengl_game/pong.c:360 | a NUL-free buffer is its own C string |
| `PongProtocol.CStringCut` | opengl_game/pong.c:370 | writing a NUL at index k gives the C string of the first k bytes |
| `PongProtocol.AngleText` | opengl_game/pong.c:366-371 | the text `sscanf` reads is at most 7 characters, and for a message of at least 7 bytes it is the C string of the message's first 7 bytes, whatever the buffer held |
| `PongProtocol.AngleTextOfMessage` | opengl_game/pong.c:366-371 | a message of at least 7 bytes with no NUL among the first 7 is read as those 7 bytes |
| `PongProtocol.IsSpace` | opengl_game/pong.c:371 | the white space `%d` skips (`isspace` in the C locale) |
| `PongProtocol.Run` | opengl_game/pong.c:371 | the length of the longest prefix whose characters all satisfy a test: every character before it does, and the next one does not |
| `PongProtocol.RunOfPrefix` | opengl_game/pong.c:371 | the run over a prefix of accepted characters followed by a rejected one is that prefix's length |
| `PongProtocol.ScanInt` | opengl_game/pong.c:371 | a `%d` conversion that succeeds consumes text ending in a digit and stops before the next digit; its value and its failures are stated by `PongProtocol.ScanIntValue` and `PongProtocol.ScanIntSucceeds` |
| `PongProtocol.ScanSigned` | opengl_game/pong.c:371 | `%d` after the white space: the conversion consumes text ending in a digit and stops before the next digit |
| `PongProtocol.ScanUnsigned` | opengl_game/pong.c:371 | the digit run: none exactly when the text does not start with a digit; otherwise the whole run, read as its decimal value |
| `PongProtocol.ScanUnsignedDigits` | opengl_game/pong.c:371 | a digit string followed by a non-digit is read whole, as its value |
| `PongProtocol.SkipSpace` | opengl_game/pong.c:371 | `%d` skips any white space before the sign or digits and counts it as consumed |
| `PongProtocol.ScanSignedValue` | opengl_game/pong.c:371 | an optional `-` or `+` followed by digits reads as the digits' value, negated for `-`, consuming the sign and the digits |
| `PongProtocol.ScanIntValue` | opengl_game/pong.c:371 | `%d` on white space, an optional sign, digits and a text not starting with a digit reads the signed value and consumes the white space, the sign and the digits |
| `PongProtocol.ShapeOfScan` | opengl_game/pong.c:371 | a successful `%d` has read white space, an optional sign and a non-empty digit run |
| `PongProtocol.ScanIntSucceeds` | opengl_game/pong.c:371 | `%d` succeeds exactly on text made of white space, an optional sign and at least one digit; it fails on every other text |
| `PongProtocol.ScanIntFailure` | opengl_game/pong.c:371 | `%d` fails on the empty text, on white space followed by a comma, and on a sign with no digit after it |
| `PongProtocol.SignedScenario` | opengl_game/pong.c:371 | `%d` reads `" -12x"` as -12 and consumes four characters |
| `PongProtocol.ScanDigits` | opengl_game/pong.c:371 | `%d` on a digit string followed by a non-digit or the end reads that string's value and consumes exactly it |
| `PongProtocol.ScanAngles` | opengl_game/pong.c:371 | without the literal `p:`, or when the first `%d` fails, both angles keep their old values; a successful first `%d` sets the first angle; after it, a missing `,` or a failed second `%d` keeps the second angle, and a successful one sets it |
| `PongProtocol.Prefixed` | opengl_game/pong.c:371 | the text starts with the format's literal `p:` |
| `PongProtocol.ScanFirst` | opengl_game/pong.c:371 | the directives after `p:`: a failed first `%d` keeps both angles; a successful one sets the first angle and the second is set or kept by the comma and the second `%d` |
| `PongProtocol.ScanSecond` | opengl_game/pong.c:371 | the directives after the first number: the first angle is the number read; a missing `,` or a failed `%d` keeps the second angle, a successful one sets it |
| `PongProtocol.ScanTwoNumbers` | opengl_game/pong.c:371 | `p:A,B` with digit strings A and B sets the angles to the values of A and B, whatever they were before |
| `PongProtocol.FirstNumber` | opengl_game/pong.c:371 | the first `%d` reads a digit string and leaves the scan at the comma after it |
| `PongProtocol.SecondNumber` | opengl_game/pong.c:371 | the literal comma and the second `%d` read the number after the comma |
| `PongProtocol.AngleScenario` | opengl_game/pong.c:366-371 | receiving `p:45,10` sets the angles to 45 and 10 |
| `PongProtocol.FirstAngleOnly` | opengl_game/pong.c:371 | `p:7` sets the first angle to 7 and leaves the second angle as it was |
| `PongGame.Game.constructor` | opengl_game/pong.c:25-42 | the globals start with speed 1, the game paused, both angles 30, both scores 0, the ball at the centre moving left with angle 0, and the clock at the start time (pong.c:355) |
| `PongGame.Game.ResetBall` | opengl_game/pong.c:45-61 | the globals after `reset_ball` are the `PongRules.Scored` state, and scores stay in [0, 9] |
| `PongGame.Game.Step` | opengl_game/pong.c:142-193 | the globals after the ball step are the `PongRules.Advance` state of the globals before it |
| `PongGame.Game.Bounce` | opengl_game/pong.c:152-183 | the wall test, the two paddle tests and the commit, in that order, give the `PongRules.Struck` state |
| `PongGame.Game.Open` | opengl_game/pong.c:355-356 | the frame drawn before the loop takes the ball step for the time since the clock was set, paused or not, and leaves the clock alone |
| `PongGame.Game.Frame` | opengl_game/pong.c:378-387 | the globals and the clock after a pass of the loop are the `PongRules.Tick` result: a paused game draws no frame and changes nothing, the clock included; a running one takes the ball step for the time since `last_drawn_at` and then sets the clock |
| `PongGame.Game.Keyboard` | opengl_game/pong.c:299-311 | a press of SPACE toggles `paused` and changes nothing else; any other key or action leaves the state alone; the window is asked to close exactly on a press of Q or ESCAPE |
| `PongGame.Game.SendScores` | opengl_game/pong.c:359-363 | `msg` holds the `"%d,%d"` score text and its NUL at its start and its old bytes after them; the bytes sent are that text, shorter than the buffer, and equal to the C string in `msg` |
| `PongGame.Game.Receive` | opengl_game/pong.c:366-376 | no bytes is fatal and changes nothing; a leading `s` overwrites the buffer's start and unpauses, keeping the angles; any other message overwrites the buffer's start, has index 7 set to NUL, and sets the angles to the `sscanf` result on the cut text, keeping the rest of the state |
| `Text.Digits` | node_server/server.js:30 | the decimal digits of a natural number: at least one digit, which read back as the number, with the last digit being `n % 10` |
| `Text.Decimal` | opengl_game/pong.c:359 | an integer's text per `%d`: no comma and no NUL; the digits of the number, or `-` followed by the digits of its magnitude |
| `Text.TwoDigitValue` | node_server/server.js:30 | a two-digit string reads back as ten times its first digit plus its second |
| `Relay.FormatAngle` | node_server/server.js:28-31 | `format_angle` always gives exactly two characters |
| `Relay.FormatAngleDigits` | node_server/server.js:29-31 | for a non-negative angle the result is its tens and units digits, which read back as the angle modulo 100 |
| `Relay.LastTwoDigits` | node_server/server.js:30 | the last two characters of `"0"` followed by the digits of n are the tens and units digits of n |
| `Relay.FormatAnglePadded` | node_server/server.js:28-31 | 0..9 gives `"0"` followed by the digit; 10..99 gives the number's two digits |
| `Relay.FormatAngleNegative` | node_server/server.js:28-31 | -9..-1 keep their sign and lose the padding zero (`"-5"`); an angle of -10 or below loses its sign and is formatted as its absolute value |
| `Relay.DefaultAngle` | node_server/server.js:16 | `default_angle` is `"30"` |
| `Relay.Registered` | node_server/server.js:88-100 | player 1's slot is taken exactly when it was free; player 2's exactly when player 1's was taken and player 2's was free; otherwise the connection is closed with 1013 and no slot changes |
| `Relay.Dispatched` | node_server/server.js:103-111 | `start` raises the start flag and, falling through, sets the sender's angle as `angle` does; the sender is player 1 exactly when its address is player 1's; any other type changes nothing; the other slot is never changed |
| `Relay.IsFirst` | node_server/server.js:104 | a connection speaks for player 1 exactly when its address is player 1's |
| `Relay.Reply` | node_server/server.js:104-113 | a connection from player 1's address is answered with player 1's score; every other connection, including one that was refused, with player 2's |
| `Relay.DispatchKeepsReply` | node_server/server.js:103-113 | a message changes neither to whom its sender is attributed nor the score it is answered with |
| `Relay.Disconnected` | node_server/server.js:117-131 | the close handler as written: player 1's slot is reset to no address, `"30"` and score 0 when the address is player 1's, and otherwise player 2's slot is reset; the other slot and the start flag are kept |
| `Relay.RefusedCloseFreesPlayerTwo` | node_server/server.js:117-129 | after players a and b, a third connection c is refused, and its close frees player 2's slot although b is still connected |
| `Relay.DisconnectedOwn` | node_server/server.js:117-129 | the intended close handler frees only the slot the connection was given, and a refused connection changes nothing |
| `Relay.RefusedCloseKeepsSlots` | node_server/server.js:97-99 | with the intended handler, a refused connection that closes leaves the relay exactly as it was |
| `Relay.ConnectThenLeave` | node_server/server.js:88-96 | with the intended handler, a connection that takes a slot and closes leaves that slot free and the rest as it was |
| `Relay.StringNumber` | node_server/server.js:41 | the empty string converts to 0 and a digit string to its value |
| `Relay.StringNumberOfDecimal` | node_server/server.js:41 | an integer's decimal text converts back to that integer |
| `Relay.LooseEquals` | node_server/server.js:41-44 | JavaScript's `==` on numbers, strings and `undefined`: same kind compares values, a string and a number compare through `Number()`, `undefined` equals only itself |
| `Relay.LooseEqualsLaws` | node_server/server.js:41-44 | loose equality is symmetric and reflexive on these values |
| `Relay.LooseEqualsDecimal` | node_server/server.js:41-44 | a number and its decimal text are loosely equal either way round |
| `Relay.UpdatedScore` | node_server/server.js:41-46 | the stored score is either the received part or the old score, and is loosely equal (`==`) to the received part |
| `Relay.ScoreParts` | node_server/server.js:40 | the first score part is always a string |
| `Relay.Outbound` | node_server/server.js:52 | the angle message of two 2-character angles is 7 characters |
| `Relay.DataReceived` | node_server/server.js:39-53 | both slots keep their address and angle, and each score is loosely equal to its part of the payload; the start flag is lowered; the writes are `"s"` exactly when the flag was up, followed by the angle message |
| `Relay.StartIsSentOnce` | node_server/server.js:47-50 | after a start, the next `data` event writes `"s"` and the angle message, and the event after that writes only the angle message |
| `Relay.Split` | node_server/server.js:40 | `split(",")` gives at least one piece, no piece contains a comma, and joining the pieces with commas gives back the text |
| `Relay.Join` | node_server/server.js:40 | the pieces joined by commas start with the first piece, followed by a comma when there are more |
| `Relay.SplitPrepend` | node_server/server.js:40 | comma-free text put before another text is glued onto the first piece of that text's split |
| `Relay.SplitJoin` | node_server/server.js:40 | splitting comma-free pieces joined by commas gives those pieces back |
| `Relay.Player.constructor` | node_server/server.js:17-26 | a player object starts with no address, angle `"30"` and score 0 |
| `Relay.Server.constructor` | node_server/server.js:14-26 | the relay starts with two free, distinct player objects and the start flag down |
| `Relay.Server.Connect` | node_server/server.js:88-100 | the registration updates the player objects and gives the reply as `Relay.Registered` says |
| `Relay.Server.Message` | node_server/server.js:103-114 | the handler updates the flag and the sender's object as `Relay.Dispatched` says, and replies with the sender's score, which is the same before and after |
| `Relay.Server.Close` | node_server/server.js:117-131 | the handler resets the player object as `Relay.Disconnected` says |
| `Relay.Server.Release` | node_server/server.js:117-129 | the intended close handler on the objects: it frees the slot the connection was given, as `Relay.DisconnectedOwn` says, and a refused connection changes nothing |
| `Relay.Server.Data` | node_server/server.js:39-53 | the handler updates the scores and the flag and writes the strings as `Relay.DataReceived` says, in order |
| `Wire.AngleRoundTrip` | node_server/server.js:52 | for non-negative angles a and b the relay's message is 7 characters and is not a start command; the game parses it into a mod 100 and b mod 100, whatever was in its buffer |
| `Wire.OutboundOfDigits` | node_server/server.js:52 | an angle message built from two 2-digit texts starts with `p` and is read by the game exactly as sent |
| `Wire.AngleRoundTripExact` | opengl_game/pong.c:370-371 | for angles in 0..99 the game reads back exactly the angles the phones sent |
| `Wire.ScoreTextSplits` | node_server/server.js:40 | the relay splits the game's `"%d,%d"` report into the two score texts |
| `Wire.ScoreReport` | node_server/server.js:40-46 | after the game's score report, each stored score is loosely equal to that player's score in the game, and is either its text or the score held before |
| `Wire.StartReachesGame` | node_server/server.js:107-110 | after a phone's `start`, the next `data` event writes `"s"` and then the angle message carrying the sender's new angle |

## Left out

- Rendering: the OpenGL, GLFW and libkuhl calls in `display`, the `init_*` geometry builders and window creation are graphics plumbing through foreign libraries.
- Socket and process I/O. The model leaves these out:
  - socket creation, connect, and the `exit(1)` paths of `send`;
  - `usleep` pacing and `glfwPollEvents`;
  - the HTTP server and its `replaceStream` file serving;
  - the `ws` library and `os.networkInterfaces`;
  - the `end`/`error` socket handlers, `SIGINT` and `process.exit`;
  - Node's event loop.

  The messages are strings handed to and returned from the operations.
- Stream framing: each `recv` and each `data` event is one message. Two writes that arrive coalesced in one read are transport behaviour, not modelled.
- `PongRules.Advance`, `PongRules.Tick`, `PongGame.Game.Step`, `PongGame.Game.Open` and `PongGame.Game.Frame` require a non-zero `speed`. In reals, 50 paddle strikes without a point bring `speed` to exactly 0, and the model requires that away. C's `float` speed is not expected to reach exactly 0, because `0.02` has no exact binary value; there it gets very small and the step very large but finite. Neither that large step nor the rounding that leads to it is modelled.
- IEEE-754 single and double precision: positions, speed and angles are reals. Rounding, the `float` narrowing of `drand48() * (PI / 2)` and overflow are not modelled.
- `tan`, `glfwGetTime` and `drand48` are operation parameters. The only thing assumed of `drand48` is its range `[0, 1)`.
- `PongProtocol.ScanInt`: the `%d` model does not capture overflow of `int`, which is undefined in C; the value is an unbounded integer.
- `Relay.FormatAngle` takes integer angles only. Non-integer numbers (for example `12.5` gives `".5"`), numbers whose text uses an exponent, and non-numbers sent in `msg` are not modelled.
- `Relay.StringNumber` converts only the empty string and optionally signed digit strings. JavaScript's `Number()` also accepts surrounding white space, fractions, exponents and hexadecimal, which the game's `"%d,%d"` report never contains.
- JSON: the parsing of a phone message into a `ClientMessage`, a `JSON.parse` failure, and the JSON text of the `player_num`/`score` replies are not modelled. The replies are the values sent.
- GLFW's key and action codes are taken from GLFW's own header, which is not part of this model.
- The relay attributes a refused connection's messages to player 2 (`ip === p1.ip ? p1 : p2`). `Relay.Dispatched` states and proves this behaviour; the model does not change it.

## Findings

| source | as written | input that shows it | evidently intended | confidence | as-written member | corrected member |
|---|---|---|---|---|---|---|
| node_server/server.js:117-129 | a refused third connection gets the same `close` handler, which frees player 2's slot because its address is not player 1's | players connect from "a" and "b", then "c" connects and is refused with 1013; when "c" closes, player 2's slot has no address, angle `"30"` and score 0 while "b" is still playing | a connection frees only the slot it was given, so a refused connection's close changes nothing | not executed | `Relay.RefusedCloseFreesPlayerTwo` | `Relay.DisconnectedOwn` |
| opengl_game/pong.c:73-75 | the strike offset subtracts `(lower_y + PADDLE_HEIGHT) / 2`, where the comment at lines 63-66 speaks of the distance from the paddle's centre `lower_y + PADDLE_HEIGHT / 2` | a phone angle of 30 (the default) puts the paddle's bottom at 0.34; every strike on it, at its bottom, centre or top, returns +1 and deflects at angle 75 | the offset measured from `lower_y + PADDLE_HEIGHT / 2`: -1 at the paddle's bottom, 0 at its centre, +1 at its top, at every paddle height | not executed | `PongRules.SaturatingAngles` | `PongRules.PaddleCollisionCentred` |
| opengl_game/pong.c:378-387 | `last_drawn_at` is set only after a drawn frame, so a paused pass of the loop leaves it alone and the first frame after a pause moves the ball by the whole paused time | the game starts paused with the clock set; the start command comes 1.3 later; the first frame moves the serve from -0.0125 to -1.3125, and player 2 scores before anyone plays | the clock kept in step while paused, so the first frame after a pause moves the ball by one pass's time | not executed | `PongRules.ResumeAfterPauseScores` | `PongRules.TickResync` |
