/**
 The two directions of the unix-socket protocol put together: the angle message the relay
 writes is what the game's `sscanf` reads back, and the score report the game writes is
 what the relay stores.
 */
module Wire {
  import opened Text
  import opened PongProtocol
  import opened Relay

  /**
   The relay's angle message for non-negative phone angles `a` and `b` is 7 characters long,
   is not mistaken for a start command, and is parsed by the game as the two angles modulo 100,
   whatever the rest of the receive buffer held.
   */
  lemma AngleRoundTrip(a: int, b: int, buf: seq<char>, p1Angle: int, p2Angle: int)
    requires 0 <= a && 0 <= b && |buf| == MSG_SIZE
    ensures var out := Outbound(FormatAngle(a), FormatAngle(b));
            && |out| == CUT && out[0] != 's'
            && ScanAngles(AngleText(buf, out), p1Angle, p2Angle) == (a % 100, b % 100)
  {
    var fa, fb := FormatAngle(a), FormatAngle(b);
    FormatAngleDigits(a);
    FormatAngleDigits(b);
    OutboundOfDigits(fa, fb, buf);
    ScanTwoNumbers(fa, fb, p1Angle, p2Angle);
  }

  /** An angle message built from two-digit texts has no NUL and is read whole. */
  lemma OutboundOfDigits(fa: string, fb: string, buf: seq<char>)
    requires |fa| == 2 && |fb| == 2 && AllDigits(fa) && AllDigits(fb) && |buf| == MSG_SIZE
    ensures var out := Outbound(fa, fb);
            |out| == CUT && out[0] == 'p' && AngleText(buf, out) == out
  {
    var out := Outbound(fa, fb);
    assert out == ['p', ':', fa[0], fa[1], ',', fb[0], fb[1]];
    assert '\0' !in out[..CUT];
    AngleTextOfMessage(buf, out);
    assert out[..CUT] == out;
  }

  /** For angles in 0..99 the game reads back exactly the angles the phones sent. */
  lemma AngleRoundTripExact(a: int, b: int, buf: seq<char>, p1Angle: int, p2Angle: int)
    requires 0 <= a < 100 && 0 <= b < 100 && |buf| == MSG_SIZE
    ensures ScanAngles(AngleText(buf, Outbound(FormatAngle(a), FormatAngle(b))), p1Angle, p2Angle) == (a, b)
  {
    assert a % 100 == a && b % 100 == b;
    AngleRoundTrip(a, b, buf, p1Angle, p2Angle);
  }

  /** The relay splits the game's "%d,%d" report back into the two score texts. */
  lemma ScoreTextSplits(a: int, b: int)
    ensures ScoreParts(ScoreText(a, b)) == (Str(Decimal(a)), Str(Decimal(b)))
  {
    var parts := [Decimal(a), Decimal(b)];
    assert Join(parts[1..]) == Decimal(b);
    assert Join(parts) == ScoreText(a, b);
    SplitJoin(parts);
  }

  /**
   After a `data` event carrying the game's score report, each player's `score` is loosely
   equal (JavaScript `==`) to that player's score in the game, and is either the text of it
   or the value it held before.
   */
  lemma ScoreReport(s: RelayState, a: int, b: int)
    ensures var t := DataReceived(s, ScoreText(a, b)).0;
            && LooseEquals(t.p1.score, Num(a)) && LooseEquals(t.p2.score, Num(b))
            && (t.p1.score == Str(Decimal(a)) || t.p1.score == s.p1.score)
            && (t.p2.score == Str(Decimal(b)) || t.p2.score == s.p2.score)
  {
    ScoreTextSplits(a, b);
    StringNumberOfDecimal(a);
    StringNumberOfDecimal(b);
  }

  /**
   A phone's "start" reaches the game on the relay's next `data` event: "s" is written
   first, then the angle message with the sender's new angle.
   */
  lemma StartReachesGame(s: RelayState, ip: string, value: int, payload: string)
    ensures var t := Dispatched(s, ip, ClientMessage("start", value));
            var writes := DataReceived(t, payload).1;
            && writes[0] == "s" && |writes| == 2
            && writes[1] == (if IsFirst(s, ip) then Outbound(FormatAngle(value), s.p2.angle)
                             else Outbound(s.p1.angle, FormatAngle(value)))
  {
  }
}
