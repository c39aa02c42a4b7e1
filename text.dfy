/**
 Decimal text of integers, shared by the game (C `sprintf("%d")` and `sscanf("%d")`)
 and by the relay (JavaScript's conversion of an integer to a string).
 */
module Text {

  predicate IsDigit(c: char) {
    '0' <= c <= '9'
  }

  predicate AllDigits(s: string) {
    forall i :: 0 <= i < |s| ==> IsDigit(s[i])
  }

  function DigitChar(d: nat): (c: char)
    requires d < 10
    ensures IsDigit(c) && c as int - '0' as int == d
  {
    ('0' as int + d) as char
  }

  function DigitValue(c: char): (d: nat)
    requires IsDigit(c)
    ensures d < 10 && DigitChar(d) == c
  {
    c as int - '0' as int
  }

  /** The number a string of decimal digits denotes, most significant digit first. */
  function Value(s: string): nat
    requires AllDigits(s)
    decreases |s|
  {
    if s == [] then 0 else 10 * Value(s[..|s| - 1]) + DigitValue(s[|s| - 1])
  }

  /** The shortest decimal digit string of `n`; `Value` reads it back. */
  function Digits(n: nat): (s: string)
    ensures 1 <= |s| && AllDigits(s) && Value(s) == n
    ensures s[|s| - 1] == DigitChar(n % 10)
    ensures n < 10 <==> |s| == 1
    decreases n
  {
    if n < 10 then [DigitChar(n)]
    else
      var front := Digits(n / 10);
      var s := front + [DigitChar(n % 10)];
      assert s[..|s| - 1] == front;
      s
  }

  /** A two-digit string's value. */
  lemma TwoDigitValue(hi: nat, lo: nat)
    requires hi < 10 && lo < 10
    ensures AllDigits([DigitChar(hi), DigitChar(lo)])
    ensures Value([DigitChar(hi), DigitChar(lo)]) == 10 * hi + lo
  {
    var s := [DigitChar(hi), DigitChar(lo)];
    assert DigitValue(s[0]) == hi && DigitValue(s[1]) == lo;
    assert s[..1][..0] == [];
    assert Value(s[..1]) == hi;
    assert Value(s) == 10 * Value(s[..1]) + DigitValue(s[1]);
  }

  /** An integer as C's `%d` and JavaScript's `String(n)` write it. */
  function Decimal(n: int): (s: string)
    ensures 1 <= |s| && ',' !in s && '\0' !in s
    ensures n >= 0 ==> AllDigits(s) && Value(s) == n
    ensures n < 0 ==> s[0] == '-' && AllDigits(s[1..]) && Value(s[1..]) == -n
  {
    var s := if n < 0 then "-" + Digits(-n) else Digits(n);
    assert n < 0 ==> s[1..] == Digits(-n);
    assert forall i :: 0 <= i < |s| ==> s[i] == '-' || IsDigit(s[i]);
    s
  }
}
