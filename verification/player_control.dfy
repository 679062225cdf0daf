/**
 * The pure pieces of the player screen: the `m:ss` time label and the
 * targets of the 15-second seek buttons, over whole seconds.
 */
module PlayerControl {

  /** Swift's `/` on `Int`: the quotient rounded toward zero. */
  function Quot(a: int, b: int): (r: int)
    requires b > 0
    ensures a >= 0 ==> 0 <= r && r * b <= a < r * b + b
    ensures a < 0 ==> r <= 0 && r * b - b < a <= r * b
  {
    var n := if a >= 0 then a else -a;
    QuotBounds(n, b);
    if a >= 0 then n / b else NegTimes(n / b, b); -(n / b)
  }

  lemma QuotBounds(n: int, b: int)
    requires n >= 0 && b > 0
    ensures 0 <= n / b && (n / b) * b <= n < (n / b) * b + b
  {
  }

  lemma NegTimes(q: int, b: int)
    ensures (-q) * b == -(q * b)
  {
  }

  /** Swift's `%` on `Int`: the remainder takes the sign of the dividend. */
  function Rem(a: int, b: int): (r: int)
    requires b > 0
    ensures a == Quot(a, b) * b + r
    ensures a >= 0 ==> 0 <= r < b
    ensures a < 0 ==> -b < r <= 0
  {
    if a >= 0 then a % b else -((-a) % b)
  }

  predicate IsDigit(c: char) {
    '0' <= c <= '9'
  }

  predicate AllDigits(s: string) {
    forall i :: 0 <= i < |s| ==> IsDigit(s[i])
  }

  function DigitChar(d: nat): (c: char)
    requires d < 10
    ensures IsDigit(c) && c as int - '0' as int == d
  {
    ('0' as int + d) as char
  }

  /** The decimal digits of `n`, without leading zeros. */
  function Digits(n: nat): (r: string)
    ensures |r| >= 1 && AllDigits(r)
    ensures r[0] == '0' ==> n == 0 && |r| == 1
    decreases n
  {
    if n < 10 then [DigitChar(n)] else Digits(n / 10) + [DigitChar(n % 10)]
  }

  /** The number a string of decimal digits denotes. */
  function DecimalValue(s: string): nat
    requires AllDigits(s)
  {
    if s == [] then 0 else DecimalValue(s[..|s| - 1]) * 10 + (s[|s| - 1] as int - '0' as int)
  }

  /** Reading back the digits of `n` gives `n`. */
  lemma {:induction false} DigitsReadBack(n: nat)
    ensures DecimalValue(Digits(n)) == n
    decreases n
  {
    if n >= 10 {
      var s := Digits(n);
      assert s[..|s| - 1] == Digits(n / 10);
      DigitsReadBack(n / 10);
    }
  }

  /** `%d`: the digits of `n`, after a minus sign when it is negative. */
  function FormatInt(n: int): (r: string)
    ensures n >= 0 ==> |r| >= 1 && AllDigits(r) && DecimalValue(r) == n && (r[0] == '0' ==> r == "0")
    ensures n < 0 ==> |r| >= 2 && r[0] == '-' && AllDigits(r[1..]) && DecimalValue(r[1..]) == -n
  {
    if n < 0 then
      DigitsReadBack(-n);
      assert ("-" + Digits(-n))[1..] == Digits(-n);
      "-" + Digits(-n)
    else
      DigitsReadBack(n);
      Digits(n)
  }

  /** `%02d`: a value below 100 as exactly two digits; anything else as `%d` would print it. */
  function FormatPadded2(n: int): (r: string)
    ensures 0 <= n < 100 ==> |r| == 2 && AllDigits(r) && DecimalValue(r) == n
    ensures !(0 <= n < 10) ==> r == FormatInt(n)
  {
    if 0 <= n < 10 then
      TwoDigitsValue('0', DigitChar(n));
      "0" + Digits(n)
    else if 10 <= n < 100 then
      assert Digits(n / 10) == [DigitChar(n / 10)];
      assert Digits(n) == [DigitChar(n / 10), DigitChar(n % 10)];
      TwoDigitsValue(DigitChar(n / 10), DigitChar(n % 10));
      FormatInt(n)
    else
      FormatInt(n)
  }

  lemma TwoDigitsValue(a: char, b: char)
    requires IsDigit(a) && IsDigit(b)
    ensures DecimalValue([a, b]) == (a as int - '0' as int) * 10 + (b as int - '0' as int)
  {
    assert [a, b][..1] == [a];
    assert [a][..0] == [];
    assert DecimalValue([a]) == a as int - '0' as int;
  }

  /** The parts of `mm + ":" + ss` as positions from either end. */
  lemma SplitLabel(mm: string, ss: string)
    requires |ss| == 2
    ensures var s := mm + ":" + ss;
      |s| == |mm| + 3 && s[..|s| - 3] == mm && s[|s| - 3] == ':' && s[|s| - 2..] == ss
  {
  }

  /**
   * `formatTime`: `String(format: "%d:%02d", t / 60, t % 60)`. For a
   * non-negative time that is the minutes without padding, a colon, and
   * exactly two digits of seconds below 60; read back, they give the time.
   * A negative time gives negative fields (see `FormatTimeNegative`).
   */
  function FormatTime(t: int): (r: string)
    ensures t >= 0 ==>
      && |r| >= 4 && r[|r| - 3] == ':'
      && AllDigits(r[..|r| - 3]) && (r[0] == '0' ==> |r| == 4)
      && AllDigits(r[|r| - 2..]) && DecimalValue(r[|r| - 2..]) < 60
      && DecimalValue(r[..|r| - 3]) * 60 + DecimalValue(r[|r| - 2..]) == t
  {
    var mm, ss := FormatInt(Quot(t, 60)), FormatPadded2(Rem(t, 60));
    if t >= 0 then
      SplitLabel(mm, ss);
      mm + ":" + ss
    else
      mm + ":" + ss
  }

  /** At zero seconds the label reads "0:00", as the labels are initialised. */
  lemma FormatTimeZero()
    ensures FormatTime(0) == "0:00"
  {
  }

  /** A negative time gives negative fields, as Swift's truncating division does: -75 s reads "-1:-15". */
  lemma FormatTimeNegative()
    ensures FormatTime(-75) == "-1:-15"
  {
  }

  /** `seekBack`: `max(0, current - 15)`, never before the start. */
  function SeekBackTarget(current: int): (r: int)
    ensures r >= 0 && r >= current - 15
    ensures r == 0 || r == current - 15
  {
    if current - 15 > 0 then current - 15 else 0
  }

  /** `seekForward` as written: `min(duration, current + 15)`. */
  function SeekForwardTargetAsWritten(current: int, duration: int): (r: int)
    ensures r <= duration && r <= current + 15
    ensures r == duration || r == current + 15
  {
    if duration < current + 15 then duration else current + 15
  }

  /**
   * Before the duration has loaded it is 0, and a forward seek from any
   * later position jumps back to the start.
   */
  lemma SeekForwardCanRewind()
    ensures SeekForwardTargetAsWritten(30, 0) == 0 < 30
  {
  }

  /**
   * `seekForward` as intended: at most 15 seconds ahead, not past the end
   * when the position is within the duration, and never backwards.
   */
  function SeekForwardTarget(current: int, duration: int): (r: int)
    ensures current <= r <= current + 15
    ensures current <= duration ==> r <= duration
    ensures current <= duration ==> r == SeekForwardTargetAsWritten(current, duration)
  {
    var clamped := SeekForwardTargetAsWritten(current, duration);
    if clamped < current then current else clamped
  }
}
