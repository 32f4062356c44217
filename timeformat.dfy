/** formatTime: a number of seconds as "minutes:seconds", the seconds part
    padded to two digits. The input is a JavaScript number, modelled as a
    real; Math.floor is `.Floor`, JavaScript's `%` truncates toward zero,
    and numbers are printed in decimal with a leading "-" when negative. */
module TimeFormat {
  import opened Wrappers

  function Digit(d: int): (c: char)
    requires 0 <= d < 10
    ensures '0' <= c <= '9'
  {
    ('0' as int + d) as char
  }

  predicate IsDigit(c: char) {
    '0' <= c <= '9'
  }

  function DigitValue(c: char): (d: nat)
    requires IsDigit(c)
    ensures d < 10
  {
    c as int - '0' as int
  }

  predicate AllDigits(s: string) {
    forall i :: 0 <= i < |s| ==> IsDigit(s[i])
  }

  /** Decimal notation of a natural number, without leading zeros. */
  function NatToString(n: nat): (s: string)
    ensures |s| >= 1 && AllDigits(s)
    ensures |s| == 1 <==> n < 10
    ensures s[0] == '0' <==> n == 0
    ensures |s| > 1 ==> s[0] != '0'
    decreases n
  {
    if n < 10 then [Digit(n)] else NatToString(n / 10) + [Digit(n % 10)]
  }

  /** Number-to-string conversion of an integer. */
  function IntToString(i: int): string {
    if i < 0 then "-" + NatToString(-i) else NatToString(i)
  }

  /** padStart(2, '0'). */
  function PadStart2(s: string): string {
    if |s| >= 2 then s else if |s| == 1 then "0" + s else "00"
  }

  /** Math.trunc. */
  function Trunc(q: real): int {
    if q >= 0.0 then q.Floor else -((-q).Floor)
  }

  /** JavaScript's remainder `x % 60`: the sign follows the dividend. */
  function Rem60(x: real): real {
    x - 60.0 * Trunc(x / 60.0) as real
  }

  /** formatTime. Zero is the falsy case and prints as "0:00". */
  function FormatTime(seconds: real): string {
    if seconds == 0.0 then "0:00"
    else
      var m := (seconds / 60.0).Floor;
      var s := Rem60(seconds).Floor;
      IntToString(m) + ":" + PadStart2(IntToString(s))
  }

  // ---------------------------------------------------------------------
  // Reading a time string back

  /** The value of a string of decimal digits. */
  function ParseNat(s: string): nat
    requires AllDigits(s)
    decreases |s|
  {
    if s == [] then 0 else ParseNat(s[..|s| - 1]) * 10 + DigitValue(s[|s| - 1])
  }

  /** Reads "m:ss" back as a number of whole seconds. */
  function ParseTime(t: string): Option<int> {
    if |t| >= 4 && t[|t| - 3] == ':' && AllDigits(t[..|t| - 3])
       && IsDigit(t[|t| - 2]) && IsDigit(t[|t| - 1])
    then Some(ParseNat(t[..|t| - 3]) * 60 + DigitValue(t[|t| - 2]) * 10 + DigitValue(t[|t| - 1]))
    else None
  }

  // ---------------------------------------------------------------------
  // Properties

  /** The floor of a real is the one integer within 1 below it. */
  lemma FloorIs(x: real, k: int)
    requires k as real <= x < k as real + 1.0
    ensures x.Floor == k
  {
  }

  /** Parsing undoes printing. */
  lemma {:induction false} ParseNatToString(n: nat)
    ensures ParseNat(NatToString(n)) == n
    decreases n
  {
    if n >= 10 {
      var s := NatToString(n);
      assert s[..|s| - 1] == NatToString(n / 10);
      ParseNatToString(n / 10);
    }
  }

  /** For a non-negative input the minutes are floor(seconds) / 60 and the
      seconds part is floor(seconds) % 60 written with exactly two digits,
      so that minutes * 60 + seconds part == floor(seconds). */
  lemma FormatTimeShape(seconds: real)
    requires seconds >= 0.0
    ensures var f := seconds.Floor;
      FormatTime(seconds) == NatToString(f / 60) + ":" + [Digit(f % 60 / 10), Digit(f % 60 % 10)]
  {
    var f := seconds.Floor;
    var q := (seconds / 60.0).Floor;
    assert 60.0 * q as real <= seconds < 60.0 * q as real + 60.0;
    assert 60 * q <= f < 60 * q + 60;
    assert q == f / 60 && f - 60 * q == f % 60;
    assert Trunc(seconds / 60.0) == q;
    FloorIs(Rem60(seconds), f - 60 * q);
    var ss := f % 60;
    if ss < 10 {
      assert PadStart2(IntToString(ss)) == [Digit(0), Digit(ss)];
    } else {
      assert NatToString(ss) == NatToString(ss / 10) + [Digit(ss % 10)];
    }
    if seconds == 0.0 {
      assert f == 0;
    }
  }

  /** Reading the printed time gives back the whole seconds of the input. */
  lemma FormatTimeRoundTrip(seconds: real)
    requires seconds >= 0.0
    ensures ParseTime(FormatTime(seconds)) == Some(seconds.Floor)
  {
    var f := seconds.Floor;
    FormatTimeShape(seconds);
    var mm := NatToString(f / 60);
    var t := FormatTime(seconds);
    assert t == mm + ":" + [Digit(f % 60 / 10), Digit(f % 60 % 10)];
    assert t[..|t| - 3] == mm;
    ParseNatToString(f / 60);
  }

  /** Examples: zero, under a minute, a three-minute-thirty track, and a
      negative input, where floor and the truncating remainder disagree. */
  lemma FormatTimeExamples()
    ensures FormatTime(0.0) == "0:00"
    ensures FormatTime(7.9) == "0:07"
    ensures FormatTime(210.0) == "3:30"
    ensures FormatTime(-30.0) == "-1:-30"
  {
  }
}
