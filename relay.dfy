/**
 The relay of server.js: two player slots filled by WebSocket connections, the `start` /
 `angle` messages the phones send, the one-shot start flag, and the exchange with the game
 over the unix socket (scores in, "s" and "p:AA,BB" out). The handlers are transition
 functions on `RelayState`; the classes `Player` and `Server` update the `p1`/`p2` objects
 and `should_start` in place and are proved to follow those functions.
 */
module Relay {
  import opened Wrappers
  import opened Text

  /** A JavaScript value held in a player's `score`: a number, a string, or `undefined`. */
  datatype Score = Num(n: int) | Str(s: string) | Undefined

  /** The fields of the `p1` and `p2` objects. */
  datatype Slot = Slot(ip: Option<string>, angle: string, score: Score)

  datatype RelayState = RelayState(p1: Slot, p2: Slot, shouldStart: bool)

  /** What a new WebSocket connection is told: its player number, or a close with this code. */
  datatype Connected = PlayerNum(n: int) | Closed(code: int)

  /** A parsed phone message: its `type` and its numeric `msg`. */
  datatype ClientMessage = ClientMessage(kind: string, value: int)

  /** The WebSocket close code "Try Again Later". */
  const TRY_AGAIN_LATER: int := 1013

  /** `format_angle(num)`: the last two characters of "0" followed by the number's text. */
  function FormatAngle(num: int): (s: string)
    ensures |s| == 2
  {
    var t := "0" + Decimal(num);
    t[|t| - 2..]
  }

  /** For a non-negative angle the result is its last two decimal digits. */
  lemma FormatAngleDigits(num: int)
    requires 0 <= num
    ensures FormatAngle(num) == [DigitChar((num / 10) % 10), DigitChar(num % 10)]
    ensures AllDigits(FormatAngle(num)) && Value(FormatAngle(num)) == num % 100
  {
    assert Decimal(num) == Digits(num);
    LastTwoDigits(num);
    TwoDigitValue((num / 10) % 10, num % 10);
    HundredsSplit(num);
  }

  /**
   A negative angle loses its sign once it has two digits or more, so it formats as its
   absolute value does; from -9 to -1 the sign stays and the zero is cut off.
   */
  lemma FormatAngleNegative(num: int)
    requires num < 0
    ensures -10 < num ==> FormatAngle(num) == ['-', DigitChar(-num)]
    ensures num <= -10 ==> FormatAngle(num) == FormatAngle(-num)
  {
    var d := Digits(-num);
    assert Decimal(num) == "-" + d && Decimal(-num) == d;
    var t, u := "0" + ("-" + d), "0" + d;
    if -10 < num {
      assert d == [DigitChar(-num)];
      assert t == ['0', '-', DigitChar(-num)];
    } else {
      assert t[|t| - 2..] == [t[|t| - 2], t[|t| - 1]] == [d[|d| - 2], d[|d| - 1]];
      assert u[|u| - 2..] == [u[|u| - 2], u[|u| - 1]] == [d[|d| - 2], d[|d| - 1]];
    }
  }

  /** The last two characters of "0" followed by the digits of `num`. */
  lemma LastTwoDigits(num: nat)
    ensures var t := "0" + Digits(num);
            t[|t| - 2..] == [DigitChar((num / 10) % 10), DigitChar(num % 10)]
  {
    var d := Digits(num);
    var t := "0" + d;
    var hi, lo := (num / 10) % 10, num % 10;
    assert t[|t| - 2..] == [t[|t| - 2], t[|t| - 1]];
    assert t[|t| - 1] == DigitChar(lo);
    if num < 10 {
      SmallDigits(num);
      assert t[|t| - 2] == '0' == DigitChar(hi);
    } else {
      var front := Digits(num / 10);
      assert d == front + [DigitChar(lo)];
      assert t[|t| - 2] == front[|front| - 1];
    }
  }

  lemma SmallDigits(num: nat)
    requires num < 10
    ensures (num / 10) % 10 == 0 && |Digits(num)| == 1
  {
  }

  lemma HundredsSplit(num: nat)
    ensures 10 * ((num / 10) % 10) + num % 10 == num % 100
  {
  }

  lemma FormatAnglePadded(num: int)
    requires 0 <= num < 100
    ensures num < 10 ==> FormatAngle(num) == ['0', DigitChar(num)]
    ensures 10 <= num ==> FormatAngle(num) == Digits(num)
  {
    FormatAngleDigits(num);
    BelowHundred(num);
    if 10 <= num {
      var hi := num / 10;
      assert Digits(hi) == [DigitChar(hi)];
      assert Digits(num) == [DigitChar(hi)] + [DigitChar(num % 10)];
    }
  }

  lemma BelowHundred(num: nat)
    requires num < 100
    ensures (num / 10) % 10 == num / 10 < 10
    ensures num < 10 ==> num / 10 == 0 && num % 10 == num
  {
  }

  /** `default_angle`. */
  function DefaultAngle(): (s: string)
    ensures s == "30"
  {
    FormatAngleDigits(30);
    FormatAngle(30)
  }

  const FREE: Slot := Slot(None, DefaultAngle(), Num(0))

  const INITIAL_RELAY: RelayState := RelayState(FREE, FREE, false)

  /** The connection handler's registration: the first free slot, else a close with 1013. */
  function Registered(s: RelayState, ip: string): (r: (RelayState, Connected))
    ensures r.1 == PlayerNum(1) <==> s.p1.ip == None
    ensures r.1 == PlayerNum(2) <==> s.p1.ip != None && s.p2.ip == None
    ensures r.1 == Closed(TRY_AGAIN_LATER) <==> s.p1.ip != None && s.p2.ip != None
    ensures r.1 == PlayerNum(1) ==> r.0 == s.(p1 := s.p1.(ip := Some(ip)))
    ensures r.1 == PlayerNum(2) ==> r.0 == s.(p2 := s.p2.(ip := Some(ip)))
    ensures r.1.Closed? ==> r.0 == s
  {
    if s.p1.ip == None then (s.(p1 := s.p1.(ip := Some(ip))), PlayerNum(1))
    else if s.p2.ip == None then (s.(p2 := s.p2.(ip := Some(ip))), PlayerNum(2))
    else (s, Closed(TRY_AGAIN_LATER))
  }

  /** The slot a connection from `ip` speaks for: `ip === p1.ip ? p1 : p2`. */
  predicate IsFirst(s: RelayState, ip: string) {
    s.p1.ip == Some(ip)
  }

  /**
   The `message` handler: "start" raises the start flag and, falling through, sets the
   sender's angle as "angle" does; any other type changes nothing.
   */
  function Dispatched(s: RelayState, ip: string, m: ClientMessage): (r: RelayState)
    ensures r.shouldStart == (s.shouldStart || m.kind == "start")
    ensures m.kind != "start" && m.kind != "angle" ==> r == s
    ensures (m.kind == "start" || m.kind == "angle") && IsFirst(s, ip) ==>
              r.p1 == s.p1.(angle := FormatAngle(m.value)) && r.p2 == s.p2
    ensures (m.kind == "start" || m.kind == "angle") && !IsFirst(s, ip) ==>
              r.p2 == s.p2.(angle := FormatAngle(m.value)) && r.p1 == s.p1
  {
    var flagged := if m.kind == "start" then s.(shouldStart := true) else s;
    if m.kind == "start" || m.kind == "angle" then
      if IsFirst(s, ip) then flagged.(p1 := flagged.p1.(angle := FormatAngle(m.value)))
      else flagged.(p2 := flagged.p2.(angle := FormatAngle(m.value)))
    else flagged
  }

  /** The score the `message` handler sends back to the phone. */
  function Reply(s: RelayState, ip: string): (v: Score)
    ensures s.p1.ip == Some(ip) ==> v == s.p1.score
    ensures s.p1.ip != Some(ip) ==> v == s.p2.score
  {
    if IsFirst(s, ip) then s.p1.score else s.p2.score
  }

  /** A phone's message never changes the score it is answered with, nor who it is attributed to. */
  lemma DispatchKeepsReply(s: RelayState, ip: string, m: ClientMessage)
    ensures IsFirst(Dispatched(s, ip, m), ip) == IsFirst(s, ip)
    ensures Reply(Dispatched(s, ip, m), ip) == Reply(s, ip)
  {
  }

  /** The `close` handler as written: the slot `ip === p1.ip ? p1 : p2` is freed. */
  function Disconnected(s: RelayState, ip: string): (r: RelayState)
    ensures IsFirst(s, ip) ==> r.p1 == FREE && r.p2 == s.p2
    ensures !IsFirst(s, ip) ==> r.p2 == FREE && r.p1 == s.p1
    ensures r.shouldStart == s.shouldStart
  {
    if IsFirst(s, ip) then s.(p1 := FREE) else s.(p2 := FREE)
  }

  /**
   A third connection is refused, and the close that follows runs the same handler: since
   its address is not player 1's, it frees player 2's slot although player 2 is still there.
   */
  lemma RefusedCloseFreesPlayerTwo()
    ensures var (s1, c1) := Registered(INITIAL_RELAY, "a");
            var (s2, c2) := Registered(s1, "b");
            var (s3, c3) := Registered(s2, "c");
            && c1 == PlayerNum(1) && c2 == PlayerNum(2) && c3 == Closed(TRY_AGAIN_LATER)
            && s3.p2.ip == Some("b")
            && Disconnected(s3, "c").p2.ip == None
  {
    var (s1, c1) := Registered(INITIAL_RELAY, "a");
    var (s2, c2) := Registered(s1, "b");
    assert "c" != "a";
  }

  /**
   The close handler the refusal intends: a connection frees only the slot it was given,
   so a refused connection changes nothing.
   */
  function DisconnectedOwn(s: RelayState, given: Connected): (r: RelayState)
    ensures given == PlayerNum(1) ==> r.p1 == FREE && r.p2 == s.p2
    ensures given == PlayerNum(2) ==> r.p2 == FREE && r.p1 == s.p1
    ensures given != PlayerNum(1) && given != PlayerNum(2) ==> r == s
    ensures r.shouldStart == s.shouldStart
  {
    if given == PlayerNum(1) then s.(p1 := FREE)
    else if given == PlayerNum(2) then s.(p2 := FREE)
    else s
  }

  /** With the intended handler, registering and then closing a refused connection is no change at all. */
  lemma RefusedCloseKeepsSlots(s: RelayState, ip: string)
    requires s.p1.ip != None && s.p2.ip != None
    ensures var (t, c) := Registered(s, ip);
            DisconnectedOwn(t, c) == s
  {
  }

  /** With the intended handler, a player who connects and leaves frees exactly the slot it took. */
  lemma {:induction false} ConnectThenLeave(s: RelayState, ip: string)
    requires s.p1.ip == None || s.p2.ip == None
    ensures var (t, c) := Registered(s, ip);
            DisconnectedOwn(t, c) == if s.p1.ip == None then s.(p1 := FREE) else s.(p2 := FREE)
  {
  }

  /** JavaScript's `Number(text)` for the texts that denote integers; None where it gives NaN. */
  function StringNumber(t: string): (v: Option<int>)
    ensures t == "" ==> v == Some(0)
    ensures AllDigits(t) && t != "" ==> v == Some(Value(t))
  {
    if t == "" then Some(0)
    else if t[0] == '+' || t[0] == '-' then
      if |t| > 1 && AllDigits(t[1..]) then
        var magnitude: int := Value(t[1..]);
        Some(if t[0] == '-' then -magnitude else magnitude)
      else None
    else if AllDigits(t) then Some(Value(t))
    else None
  }

  /** The integer text `Decimal` writes reads back as that integer. */
  lemma StringNumberOfDecimal(n: int)
    ensures StringNumber(Decimal(n)) == Some(n)
  {
    var t := Decimal(n);
    if n >= 0 {
      assert t[0] != '+' && t[0] != '-';
    }
  }

  /** Loose equality is symmetric and holds between a value and itself, as JavaScript's `==` does on these values. */
  lemma LooseEqualsLaws(a: Score, b: Score)
    ensures LooseEquals(a, b) == LooseEquals(b, a)
    ensures LooseEquals(a, a)
  {
  }

  /** A number and the integer text `Decimal` writes for it are loosely equal, whichever side each is on. */
  lemma LooseEqualsDecimal(n: int)
    ensures LooseEquals(Str(Decimal(n)), Num(n)) && LooseEquals(Num(n), Str(Decimal(n)))
  {
    StringNumberOfDecimal(n);
  }

  /** JavaScript's loose equality `==` on the values a score can hold. */
  predicate LooseEquals(a: Score, b: Score) {
    match (a, b)
    case (Undefined, Undefined) => true
    case (Undefined, _) => false
    case (_, Undefined) => false
    case (Num(x), Num(y)) => x == y
    case (Str(x), Str(y)) => x == y
    case (Str(x), Num(y)) => StringNumber(x) == Some(y)
    case (Num(x), Str(y)) => StringNumber(y) == Some(x)
  }

  /** `if (part != score) score = part`: the stored score afterwards is loosely equal to the part. */
  function UpdatedScore(current: Score, part: Score): (r: Score)
    ensures r == part || r == current
    ensures LooseEquals(r, part)
  {
    if !LooseEquals(part, current) then part else current
  }

  /** The text `p1.score` and `p2.score` take from `data.toString().split(",")`. */
  function ScoreParts(payload: string): (r: (Score, Score))
    ensures r.0.Str?
  {
    var parts := Split(payload);
    (Str(parts[0]), if |parts| >= 2 then Str(parts[1]) else Undefined)
  }

  /** `"p:" + p1.angle + "," + p2.angle`, the angle message the relay writes to the game. */
  function Outbound(a1: string, a2: string): (t: string)
    ensures |a1| == 2 && |a2| == 2 ==> |t| == 7
  {
    "p:" + a1 + "," + a2
  }

  /**
   The socket `data` handler: store the two score parts, write "s" when the start flag is
   up and lower it, then write the angle message.
   */
  function DataReceived(s: RelayState, payload: string): (r: (RelayState, seq<string>))
    ensures var (t, writes) := r;
            && t.p1.ip == s.p1.ip && t.p1.angle == s.p1.angle
            && t.p2.ip == s.p2.ip && t.p2.angle == s.p2.angle
            && LooseEquals(t.p1.score, ScoreParts(payload).0)
            && LooseEquals(t.p2.score, ScoreParts(payload).1)
            && !t.shouldStart
            && writes == (if s.shouldStart then ["s"] else []) + [Outbound(s.p1.angle, s.p2.angle)]
  {
    var (first, second) := ScoreParts(payload);
    var t := s.(p1 := s.p1.(score := UpdatedScore(s.p1.score, first)),
                p2 := s.p2.(score := UpdatedScore(s.p2.score, second)));
    var starts := if s.shouldStart then ["s"] else [];
    (t.(shouldStart := false), starts + [Outbound(t.p1.angle, t.p2.angle)])
  }

  /** `"s"` goes out on exactly one `data` event after a start, and never on the next one. */
  lemma StartIsSentOnce(s: RelayState, payload: string, next: string)
    requires s.shouldStart
    ensures var (t, writes) := DataReceived(s, payload);
            && writes[0] == "s" && |writes| == 2
            && DataReceived(t, next).1 == [Outbound(s.p1.angle, s.p2.angle)]
  {
  }

  /** `text.split(",")`: the pieces between commas, always at least one. */
  function Split(text: string): (parts: seq<string>)
    ensures |parts| >= 1
    ensures forall i :: 0 <= i < |parts| ==> ',' !in parts[i]
    ensures Join(parts) == text
    decreases |text|
  {
    if text == [] then [""]
    else
      var rest := Split(text[1..]);
      if text[0] == ',' then [""] + rest
      else [[text[0]] + rest[0]] + rest[1..]
  }

  /** The pieces separated by commas; the inverse of `Split`. */
  function Join(parts: seq<string>): (text: string)
    requires |parts| >= 1
    ensures |text| >= |parts[0]| && text[..|parts[0]|] == parts[0]
    ensures |parts| >= 2 ==> |text| > |parts[0]| && text[|parts[0]|] == ','
    ensures |parts| == 1 ==> text == parts[0]
  {
    if |parts| == 1 then parts[0] else parts[0] + "," + Join(parts[1..])
  }

  lemma {:induction false} SplitPrepend(p: string, rest: string)
    requires ',' !in p
    ensures Split(p + rest) == [p + Split(rest)[0]] + Split(rest)[1..]
    decreases |p|
  {
    if p != [] {
      var text := p + rest;
      assert text[0] == p[0] && p[0] != ',';
      assert text[1..] == p[1..] + rest;
      SplitPrepend(p[1..], rest);
      var r := Split(p[1..] + rest);
      var tail := Split(rest);
      assert r[0] == p[1..] + tail[0] && r[1..] == tail[1..];
      assert Split(text) == [[p[0]] + r[0]] + r[1..];
      assert [p[0]] + (p[1..] + tail[0]) == p + tail[0];
    } else {
      assert p + rest == rest;
      var tail := Split(rest);
      assert p + tail[0] == tail[0];
      assert [tail[0]] + tail[1..] == tail;
    }
  }

  /** Splitting text that was joined from comma-free pieces gives those pieces back. */
  lemma {:induction false} SplitJoin(parts: seq<string>)
    requires |parts| >= 1
    requires forall i :: 0 <= i < |parts| ==> ',' !in parts[i]
    ensures Split(Join(parts)) == parts
  {
    if |parts| == 1 {
      SplitPrepend(parts[0], "");
      assert parts[0] + "" == parts[0];
    } else {
      var tail := Join(parts[1..]);
      SplitJoin(parts[1..]);
      assert Split("," + tail) == [""] + parts[1..] by {
        assert ("," + tail)[1..] == tail;
      }
      assert Join(parts) == parts[0] + ("," + tail);
      SplitPrepend(parts[0], "," + tail);
      assert parts[0] + "" == parts[0];
    }
  }

  /** A player's fields, the `p1`/`p2` object updated in place by the handlers. */
  class Player {
    var ip: Option<string>
    var angle: string
    var score: Score

    constructor ()
      ensures View() == FREE
    {
      ip := None;
      angle := DefaultAngle();
      score := Num(0);
    }

    function View(): Slot
      reads this
    {
      Slot(ip, angle, score)
    }
  }

  /** The relay's module-level state: the two player objects and `should_start`. */
  class Server {
    const p1: Player
    const p2: Player
    var shouldStart: bool

    ghost predicate Valid()
      reads this
    {
      p1 != p2
    }

    function State(): RelayState
      reads this, p1, p2
    {
      RelayState(p1.View(), p2.View(), shouldStart)
    }

    constructor ()
      ensures Valid() && State() == INITIAL_RELAY
      ensures fresh(p1) && fresh(p2)
    {
      p1 := new Player();
      p2 := new Player();
      shouldStart := false;
    }

    /** The `connection` handler's registration of a client at address `ip`. */
    method Connect(ip: string) returns (reply: Connected)
      requires Valid()
      modifies p1, p2
      ensures Valid() && (State(), reply) == Registered(old(State()), ip)
    {
      if p1.ip == None {
        p1.ip := Some(ip);
        reply := PlayerNum(1);
      } else if p2.ip == None {
        p2.ip := Some(ip);
        reply := PlayerNum(2);
      } else {
        reply := Closed(TRY_AGAIN_LATER);
      }
    }

    /** The `message` handler of the connection from `ip`; returns the score it sends back. */
    method Message(ip: string, m: ClientMessage) returns (reply: Score)
      requires Valid()
      modifies this, p1, p2
      ensures Valid() && State() == Dispatched(old(State()), ip, m)
      ensures reply == Reply(State(), ip) && reply == Reply(old(State()), ip)
    {
      var player := if p1.ip == Some(ip) then p1 else p2;
      if m.kind == "start" {
        shouldStart := true;
      }
      if m.kind == "start" || m.kind == "angle" {
        player.angle := FormatAngle(m.value);
      }
      reply := player.score;
    }

    /** The `close` handler of the connection from `ip`, as written. */
    method Close(ip: string)
      requires Valid()
      modifies p1, p2
      ensures Valid() && State() == Disconnected(old(State()), ip)
    {
      var player := if p1.ip == Some(ip) then p1 else p2;
      player.ip := None;
      player.angle := DefaultAngle();
      player.score := Num(0);
    }

    /** The intended `close` handler: the connection frees the slot it was `given`, if any. */
    method Release(given: Connected)
      requires Valid()
      modifies p1, p2
      ensures Valid() && State() == DisconnectedOwn(old(State()), given)
    {
      if given == PlayerNum(1) || given == PlayerNum(2) {
        var player := if given == PlayerNum(1) then p1 else p2;
        player.ip := None;
        player.angle := DefaultAngle();
        player.score := Num(0);
      }
    }

    /** The socket `data` handler; returns the strings written back to the game, in order. */
    method Data(payload: string) returns (writes: seq<string>)
      requires Valid()
      modifies this, p1, p2
      ensures Valid() && (State(), writes) == DataReceived(old(State()), payload)
    {
      var parts := Split(payload);
      var p1Score := Str(parts[0]);
      var p2Score := if |parts| >= 2 then Str(parts[1]) else Undefined;
      if !LooseEquals(p1Score, p1.score) {
        p1.score := p1Score;
      }
      if !LooseEquals(p2Score, p2.score) {
        p2.score := p2Score;
      }
      ghost var before := old(State());
      assert (p1Score, p2Score) == ScoreParts(payload);
      assert p1.score == UpdatedScore(before.p1.score, p1Score);
      assert p2.score == UpdatedScore(before.p2.score, p2Score);
      writes := [];
      if shouldStart {
        writes := writes + ["s"];
        shouldStart := false;
      }
      writes := writes + [Outbound(p1.angle, p2.angle)];
      assert State().p1 == DataReceived(before, payload).0.p1;
      assert State().p2 == DataReceived(before, payload).0.p2;
      assert writes == DataReceived(before, payload).1;
    }
  }
}
