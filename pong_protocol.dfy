/**
 The text the game exchanges with the relay over its socket: the score report it writes
 with `sprintf(msg, "%d,%d", ...)`, the 16-byte `msg` buffer that `recv` overwrites, and
 `sscanf(msg, "p:%d,%d", ...)` on that buffer once it is cut to 7 bytes (the directives
 and the `%d` conversion follow section 7.21.6.2 of ISO C11).
 */
module PongProtocol {
  import opened Wrappers
  import opened Text

  /** The size of `msg` in `main`. */
  const MSG_SIZE: nat := 16
  /** The index `main` overwrites with a NUL before parsing an angle message. */
  const CUT: nat := 7

  /** The text `sprintf(msg, "%d,%d", p1_score, p2_score)` writes, without its NUL. */
  function ScoreText(p1Score: int, p2Score: int): (s: string)
    ensures ',' !in Decimal(p1Score) && ',' !in Decimal(p2Score) && '\0' !in s
    ensures 0 <= p1Score < 10 && 0 <= p2Score < 10 ==> |s| == 3
  {
    Decimal(p1Score) + "," + Decimal(p2Score)
  }

  /** A buffer after `recv` stored `data` at its start; the bytes past `data` are left as they were. */
  function Overwrite(buf: seq<char>, data: seq<char>): (r: seq<char>)
    requires |data| <= |buf|
    ensures |r| == |buf|
    ensures forall i :: 0 <= i < |data| ==> r[i] == data[i]
    ensures forall i :: |data| <= i < |buf| ==> r[i] == buf[i]
  {
    data + buf[|data|..]
  }

  /** The C string a buffer holds: everything before its first NUL. */
  function CString(s: seq<char>): (r: seq<char>)
    ensures |r| <= |s| && r == s[..|r|] && '\0' !in r
    ensures |r| < |s| ==> s[|r|] == '\0'
  {
    if s == [] || s[0] == '\0' then [] else [s[0]] + CString(s[1..])
  }

  lemma {:induction false} CStringOfPlain(s: seq<char>)
    requires '\0' !in s
    ensures CString(s) == s
  {
    if s != [] {
      CStringOfPlain(s[1..]);
    }
  }

  /** Writing a NUL at index `k` ends the C string at `k` at the latest. */
  lemma {:induction false} CStringCut(s: seq<char>, k: nat)
    requires k < |s|
    ensures CString(s[k := '\0']) == CString(s[..k])
  {
    if k > 0 && s[0] != '\0' {
      assert s[k := '\0'][1..] == s[1..][k - 1 := '\0'];
      assert s[..k][1..] == s[1..][..k - 1];
      CStringCut(s[1..], k - 1);
    }
  }

  /** The text `sscanf` reads after `recv` stored `data` in `buf` and `msg[7]` was cleared. */
  function AngleText(buf: seq<char>, data: seq<char>): (t: seq<char>)
    requires |data| <= |buf| && CUT < |buf|
    ensures |t| <= CUT
    ensures CUT <= |data| ==> t == CString(data[..CUT])
  {
    var b := Overwrite(buf, data);
    assert CUT <= |data| ==> b[..CUT] == data[..CUT];
    CString(b[..CUT])
  }

  /** `isspace` in the C locale. */
  predicate IsSpace(c: char) {
    c == ' ' || 9 <= c as int <= 13
  }

  /** The length of the run of characters at the start of `s` that satisfy `p`. */
  function Run(s: seq<char>, p: char -> bool): (k: nat)
    ensures k <= |s|
    ensures forall i :: 0 <= i < k ==> p(s[i])
    ensures k < |s| ==> !p(s[k])
  {
    if s == [] || !p(s[0]) then 0 else 1 + Run(s[1..], p)
  }

  lemma {:induction false} RunOfPrefix(d: seq<char>, rest: seq<char>, p: char -> bool)
    requires forall i :: 0 <= i < |d| ==> p(d[i])
    requires rest == [] || !p(rest[0])
    ensures Run(d + rest, p) == |d|
  {
    if d != [] {
      assert (d + rest)[1..] == d[1..] + rest;
      RunOfPrefix(d[1..], rest, p);
    }
  }

  /**
   One `%d` conversion: skip white space, an optional sign, then the longest run of digits.
   The result is the value and the number of characters consumed, or None when no digit
   follows (a matching failure, or an input failure at the end of the string).
   */
  function ScanInt(s: seq<char>): (r: Option<(int, nat)>)
    ensures r.Some? ==> 0 < r.value.1 <= |s| && IsDigit(s[r.value.1 - 1])
    ensures r.Some? ==> r.value.1 == |s| || !IsDigit(s[r.value.1])
  {
    if s != [] && IsSpace(s[0]) then
      match ScanInt(s[1..])
      case None => None
      case Some((v, k)) => Some((v, k + 1))
    else ScanSigned(s)
  }

  /** `%d` after the white space: an optional sign, then the digits. */
  function ScanSigned(t: seq<char>): (r: Option<(int, nat)>)
    ensures r.Some? ==> 0 < r.value.1 <= |t| && IsDigit(t[r.value.1 - 1])
    ensures r.Some? ==> r.value.1 == |t| || !IsDigit(t[r.value.1])
  {
    if |t| > 0 && (t[0] == '-' || t[0] == '+') then
      match ScanUnsigned(t[1..])
      case None => None
      case Some((v, k)) => Some(((if t[0] == '-' then -1 else 1) * v, k + 1))
    else
      match ScanUnsigned(t)
      case None => None
      case Some((v, k)) => Some((v, k))
  }

  /** The longest run of digits at the start of `s` and its value, or None when there is none. */
  function ScanUnsigned(s: seq<char>): (r: Option<(nat, nat)>)
    ensures r.None? <==> s == [] || !IsDigit(s[0])
    ensures r.Some? ==> 0 < r.value.1 <= |s| && AllDigits(s[..r.value.1])
    ensures r.Some? ==> r.value.0 == Value(s[..r.value.1])
    ensures r.Some? ==> r.value.1 == |s| || !IsDigit(s[r.value.1])
  {
    var k := Run(s, IsDigit);
    if k == 0 then None else Some((Value(s[..k]), k))
  }

  /** The digits `d` followed by a non-digit are read whole. */
  lemma ScanUnsignedDigits(d: string, rest: string)
    requires |d| >= 1 && AllDigits(d)
    requires rest == [] || !IsDigit(rest[0])
    ensures ScanUnsigned(d + rest) == Some((Value(d), |d|))
  {
    RunOfPrefix(d, rest, IsDigit);
    assert (d + rest)[..|d|] == d;
  }

  /** `%d` on a digit string that is followed by a non-digit or by the end of the text. */
  lemma ScanDigits(d: string, rest: string)
    requires |d| >= 1 && AllDigits(d)
    requires rest == [] || !IsDigit(rest[0])
    ensures ScanInt(d + rest) == Some((Value(d), |d|))
  {
    ScanIntValue("", "", d, rest);
    assert "" + ("" + (d + rest)) == d + rest;
  }

  /**
   The shape a successful `%d` reads: white space `w`, an optional sign, a non-empty run of
   digits `d`, then text `rest` that does not go on with a digit.
   */
  predicate IntShaped(w: string, sign: string, d: string, rest: string) {
    && (forall i :: 0 <= i < |w| ==> IsSpace(w[i]))
    && (sign == "" || sign == "-" || sign == "+")
    && 1 <= |d| && AllDigits(d)
    && (rest == [] || !IsDigit(rest[0]))
  }

  /** `%d` skips the white space in front of a text that does not start with white space. */
  lemma {:induction false} SkipSpace(w: string, t: string, v: int, k: nat)
    requires (forall i :: 0 <= i < |w| ==> IsSpace(w[i])) && (t == [] || !IsSpace(t[0]))
    requires ScanSigned(t) == Some((v, k))
    ensures ScanInt(w + t) == Some((v, |w| + k))
  {
    if w == [] {
      assert w + t == t;
    } else {
      assert (w + t)[1..] == w[1..] + t;
      SkipSpace(w[1..], t, v, k);
    }
  }

  /** Digits with no sign in front. */
  lemma UnsignedDigits(d: string, rest: string)
    requires 1 <= |d| && AllDigits(d) && (rest == [] || !IsDigit(rest[0]))
    ensures ScanSigned(d + rest) == Some((Value(d), |d|))
  {
    ScanUnsignedDigits(d, rest);
    assert !((d + rest)[0] == '-' || (d + rest)[0] == '+');
  }

  /** Digits after a sign. */
  lemma SignedDigits(t: string, d: string, rest: string)
    requires |t| > 0 && (t[0] == '-' || t[0] == '+') && t[1..] == d + rest
    requires 1 <= |d| && AllDigits(d) && (rest == [] || !IsDigit(rest[0]))
    ensures ScanSigned(t) == Some(((if t[0] == '-' then -1 else 1) * Value(d), |d| + 1))
  {
    ScanUnsignedDigits(d, rest);
  }

  /** The optional sign and the digits after the white space. */
  lemma ScanSignedValue(sign: string, d: string, rest: string)
    requires IntShaped("", sign, d, rest)
    ensures ScanSigned(sign + (d + rest)) == Some(((if sign == "-" then -1 else 1) * Value(d), |sign| + |d|))
    ensures !IsSpace((sign + (d + rest))[0])
  {
    if sign == "" {
      assert sign + (d + rest) == d + rest;
      UnsignedDigits(d, rest);
    } else {
      var t := sign + (d + rest);
      assert t[0] == sign[0] && t[1..] == d + rest;
      SignedDigits(t, d, rest);
    }
  }

  /** `%d` on white space, a sign and digits reads the signed value and consumes all three. */
  lemma ScanIntValue(w: string, sign: string, d: string, rest: string)
    requires IntShaped(w, sign, d, rest)
    ensures ScanInt(w + (sign + (d + rest))) == Some(((if sign == "-" then -1 else 1) * Value(d), |w| + |sign| + |d|))
  {
    ScanSignedValue(sign, d, rest);
    SkipSpace(w, sign + (d + rest), (if sign == "-" then -1 else 1) * Value(d), |sign| + |d|);
  }

  /** The pieces a successful `%d` splits its text into. */
  lemma {:induction false} ShapeOfScan(s: string) returns (w: string, sign: string, d: string, rest: string)
    requires ScanInt(s).Some?
    ensures IntShaped(w, sign, d, rest) && s == w + (sign + (d + rest))
  {
    if s != [] && IsSpace(s[0]) {
      var w', sign', d', rest' := ShapeOfScan(s[1..]);
      w, sign, d, rest := [s[0]] + w', sign', d', rest';
      PrependSpace(s[0], w', sign + (d + rest));
      assert s == [s[0]] + s[1..];
    } else {
      w := [];
      sign, d, rest := ShapeOfSigned(s);
    }
  }

  /** One more white-space character in front of the white space. */
  lemma PrependSpace(c: char, w: string, t: string)
    requires IsSpace(c) && forall i :: 0 <= i < |w| ==> IsSpace(w[i])
    ensures forall i :: 0 <= i < |[c] + w| ==> IsSpace(([c] + w)[i])
    ensures [c] + (w + t) == ([c] + w) + t
  {
  }

  /** The pieces a successful `%d` after the white space splits its text into. */
  lemma ShapeOfSigned(t: string) returns (sign: string, d: string, rest: string)
    requires ScanSigned(t).Some?
    ensures IntShaped("", sign, d, rest) && t == sign + (d + rest)
  {
    if |t| > 0 && (t[0] == '-' || t[0] == '+') {
      sign := [t[0]];
      d, rest := ShapeOfDigits(t[1..]);
      assert t == sign + t[1..];
    } else {
      sign := "";
      d, rest := ShapeOfDigits(t);
    }
  }

  /** The digits a successful unsigned scan reads, and the text after them. */
  lemma ShapeOfDigits(body: string) returns (d: string, rest: string)
    requires ScanUnsigned(body).Some?
    ensures 1 <= |d| && AllDigits(d) && (rest == [] || !IsDigit(rest[0])) && body == d + rest
  {
    var k := ScanUnsigned(body).value.1;
    d, rest := body[..k], body[k..];
    assert body == d + rest;
  }

  /**
   `%d` succeeds exactly on a text of that shape; on any other text, where no digit follows
   the white space and the optional sign, it reports a failure.
   */
  lemma ScanIntSucceeds(s: string)
    ensures ScanInt(s).Some? <==>
              exists w, sign, d, rest :: IntShaped(w, sign, d, rest) && s == w + (sign + (d + rest))
  {
    if ScanInt(s).Some? {
      var w, sign, d, rest := ShapeOfScan(s);
    }
    if exists w, sign, d, rest :: IntShaped(w, sign, d, rest) && s == w + (sign + (d + rest)) {
      var w, sign, d, rest :| IntShaped(w, sign, d, rest) && s == w + (sign + (d + rest));
      ScanIntValue(w, sign, d, rest);
    }
  }

  /** Text after the white space that is neither a sign nor a digit makes `%d` fail. */
  lemma ScanIntFailure()
    ensures ScanInt("") == None && ScanInt(" ,5") == None && ScanInt("-x") == None
  {
    assert " ,5"[1..] == ",5";
  }

  /** `%d` on " -12x" skips the blank, reads the sign and both digits, and stops at `x`. */
  lemma SignedScenario()
    ensures ScanInt(" -12x") == Some((-12, 4))
  {
    ScanIntValue(" ", "-", "12", "x");
    assert " " + ("-" + ("12" + "x")) == " -12x";
    assert Value("12"[..1]) == 1;
  }

  /** The text starts with the literal `p:` of the format. */
  predicate Prefixed(text: seq<char>) {
    2 <= |text| && text[0] == 'p' && text[1] == ':'
  }

  /**
   `sscanf(text, "p:%d,%d", &p1_angle, &p2_angle)`: the literal `p:`, a number, the literal
   `,` and a number. Scanning stops at the first directive that fails, and every angle whose
   conversion did not take place keeps its old value.
   */
  function ScanAngles(text: seq<char>, p1Angle: int, p2Angle: int): (r: (int, int))
    ensures !Prefixed(text) ==> r == (p1Angle, p2Angle)
    ensures Prefixed(text) && ScanInt(text[2..]).None? ==> r == (p1Angle, p2Angle)
    ensures Prefixed(text) && ScanInt(text[2..]).Some? ==>
              var (first, used) := ScanInt(text[2..]).value;
              var rest := text[2 + used..];
              && r.0 == first
              && ((rest == [] || rest[0] != ',' || ScanInt(rest[1..]).None?) ==> r.1 == p2Angle)
              && (rest != [] && rest[0] == ',' && ScanInt(rest[1..]).Some? ==> r.1 == ScanInt(rest[1..]).value.0)
  {
    if !Prefixed(text) then (p1Angle, p2Angle)
    else
      var tail := text[2..];
      var scanned := ScanInt(tail);
      assert scanned.Some? ==> tail[scanned.value.1..] == text[2 + scanned.value.1..];
      ScanFirst(tail, p1Angle, p2Angle)
  }

  /** The directives after `p:`: the first `%d`, then the rest. */
  function ScanFirst(text: seq<char>, p1Angle: int, p2Angle: int): (r: (int, int))
    ensures ScanInt(text).None? ==> r == (p1Angle, p2Angle)
    ensures ScanInt(text).Some? ==>
              var (first, used) := ScanInt(text).value;
              var rest := text[used..];
              && r.0 == first
              && ((rest == [] || rest[0] != ',' || ScanInt(rest[1..]).None?) ==> r.1 == p2Angle)
              && (rest != [] && rest[0] == ',' && ScanInt(rest[1..]).Some? ==> r.1 == ScanInt(rest[1..]).value.0)
  {
    match ScanInt(text)
    case None => (p1Angle, p2Angle)
    case Some((first, used)) => ScanSecond(text[used..], first, p2Angle)
  }

  /** The directives after the first number: the literal `,`, then the second `%d`. */
  function ScanSecond(text: seq<char>, first: int, p2Angle: int): (r: (int, int))
    ensures r.0 == first
    ensures (text == [] || text[0] != ',' || ScanInt(text[1..]).None?) ==> r.1 == p2Angle
    ensures text != [] && text[0] == ',' && ScanInt(text[1..]).Some? ==> r.1 == ScanInt(text[1..]).value.0
  {
    if text == [] || text[0] != ',' then (first, p2Angle)
    else
      match ScanInt(text[1..])
      case None => (first, p2Angle)
      case Some((second, _)) => (first, second)
  }

  /** A fully formed message: both angles are read, whatever they were before. */
  lemma ScanTwoNumbers(a: string, b: string, p1Angle: int, p2Angle: int)
    requires |a| >= 1 && AllDigits(a) && |b| >= 1 && AllDigits(b)
    ensures ScanAngles("p:" + a + "," + b, p1Angle, p2Angle) == (Value(a), Value(b))
  {
    var text := "p:" + a + "," + b;
    var tail := "," + b;
    assert text[0] == 'p' && text[1] == ':';
    assert text[2..] == a + tail;
    FirstNumber(a, tail, p1Angle, p2Angle);
    SecondNumber(b, Value(a), p2Angle);
  }

  /** The first `%d` reads a digit string and leaves the scan at the text after it. */
  lemma FirstNumber(a: string, tail: string, p1Angle: int, p2Angle: int)
    requires |a| >= 1 && AllDigits(a) && |tail| >= 1 && tail[0] == ','
    ensures ScanFirst(a + tail, p1Angle, p2Angle) == ScanSecond(tail, Value(a), p2Angle)
  {
    ScanDigits(a, tail);
    assert (a + tail)[|a|..] == tail;
  }

  /** The literal `,` and the second `%d` read the number after the comma. */
  lemma SecondNumber(b: string, first: int, p2Angle: int)
    requires |b| >= 1 && AllDigits(b)
    ensures ScanSecond("," + b, first, p2Angle) == (first, Value(b))
  {
    assert ("," + b)[1..] == b + [];
    ScanDigits(b, []);
  }

  /** A message of at least 7 bytes with no NUL among its first 7 is read as those 7 bytes. */
  lemma AngleTextOfMessage(buf: seq<char>, data: seq<char>)
    requires |buf| == MSG_SIZE && CUT <= |data| <= MSG_SIZE && '\0' !in data[..CUT]
    ensures AngleText(buf, data) == data[..CUT]
  {
    CStringOfPlain(data[..CUT]);
  }

  /** The message "p:45,10" sets the angles to 45 and 10. */
  lemma AngleScenario(buf: seq<char>, p1Angle: int, p2Angle: int)
    requires |buf| == MSG_SIZE
    ensures ScanAngles(AngleText(buf, "p:45,10"), p1Angle, p2Angle) == (45, 10)
  {
    var a, b := "45", "10";
    var data := "p:" + a + "," + b;
    assert data == "p:45,10";
    assert data[..CUT] == data;
    AngleTextOfMessage(buf, data);
    assert Value(a[..1]) == 4;
    assert Value(b[..1]) == 1;
    ScanTwoNumbers(a, b, p1Angle, p2Angle);
  }

  /** A message that ends after the first number leaves the second angle alone. */
  lemma FirstAngleOnly(p1Angle: int, p2Angle: int)
    ensures ScanAngles("p:7", p1Angle, p2Angle) == (7, p2Angle)
  {
    assert "p:7"[2..] == "7" + [];
    ScanDigits("7", []);
  }
}
