/** `formatTime` of frontend/script.js (lines 163-169): whole minutes and
    whole remaining seconds of a time in seconds, each written in decimal and
    left-padded with '0' to at least two characters, joined by ':'. */
module TimeFormat {

  function DigitChar(d: nat): char
    requires d < 10
  {
    "0123456789"[d]
  }

  /** Every character of `s` is a decimal digit. */
  predicate IsDigits(s: string) {
    forall k :: 0 <= k < |s| ==> '0' <= s[k] <= '9'
  }

  /** Decimal digits of `n` without leading zeros ("0" for zero). */
  function Decimal(n: nat): (s: string)
    ensures |s| >= 1
  {
    if n < 10 then [DigitChar(n)] else Decimal(n / 10) + [DigitChar(n % 10)]
  }

  /** JavaScript's `String(i)` for an integer value. */
  function IntToString(i: int): string {
    if i < 0 then "-" + Decimal(-i) else Decimal(i)
  }

  /** `n` copies of '0'. */
  function Zeros(n: nat): (z: string)
    ensures |z| == n && forall k :: 0 <= k < n ==> z[k] == '0'
  {
    if n == 0 then "" else Zeros(n - 1) + "0"
  }

  /** `s.padStart(2, '0')`. */
  function PadStart2(s: string): string {
    if |s| >= 2 then s else Zeros(2 - |s|) + s
  }

  /** Rounding toward zero, as JavaScript's `%` uses for its quotient. */
  function Trunc(x: real): int {
    if x >= 0.0 then x.Floor else -((-x).Floor)
  }

  /** JavaScript's `x % y` on numbers: the remainder takes the sign of `x`. */
  function JsRemainder(x: real, y: real): real
    requires y != 0.0
  {
    x - y * (Trunc(x / y) as real)
  }

  /** `Math.floor(seconds / 60)`. */
  function Minutes(seconds: real): int {
    (seconds / 60.0).Floor
  }

  /** `Math.floor(seconds % 60)`. */
  function RemainingSeconds(seconds: real): int {
    JsRemainder(seconds, 60.0).Floor
  }

  function FormatTime(seconds: real): string {
    PadStart2(IntToString(Minutes(seconds))) + ":" + PadStart2(IntToString(RemainingSeconds(seconds)))
  }

  /** Value of a string of decimal digits (leading zeros allowed); for other
      characters it is plain arithmetic on their codes. */
  function DecimalValue(s: string): int {
    if |s| == 0 then 0
    else 10 * DecimalValue(s[..|s| - 1]) + ((s[|s| - 1] as int) - ('0' as int))
  }

  lemma FloorShift(x: real, n: int)
    ensures (x + n as real).Floor == x.Floor + n
  {
  }

  /** For a non-negative time the two fields split its whole seconds:
      `minutes * 60 + seconds == floor(s)` with seconds in 0..59. */
  lemma ClockFields(s: real)
    requires s >= 0.0
    ensures Minutes(s) >= 0
    ensures 0 <= RemainingSeconds(s) <= 59
    ensures Minutes(s) * 60 + RemainingSeconds(s) == s.Floor
  {
    var m := Minutes(s);
    assert Trunc(s / 60.0) == m;
    var r := s - 60.0 * (m as real);
    assert 0.0 <= r < 60.0;
    FloorShift(r, 60 * m);
    assert r + (60 * m) as real == s;
  }

  lemma DigitCharValue(d: nat)
    requires d < 10
    ensures '0' <= DigitChar(d) <= '9' && (DigitChar(d) as int) - ('0' as int) == d
  {
  }

  /** Appending one digit to a digit string. */
  lemma DigitsSnoc(p: string, c: char)
    requires IsDigits(p) && '0' <= c <= '9'
    ensures IsDigits(p + [c])
    ensures DecimalValue(p + [c]) == 10 * DecimalValue(p) + ((c as int) - ('0' as int))
  {
    assert (p + [c])[..|p|] == p;
  }

  /** `Decimal` writes digits only, and reading them back gives `n`. */
  lemma {:induction false} DecimalRoundTrip(n: nat)
    ensures IsDigits(Decimal(n)) && DecimalValue(Decimal(n)) == n
    decreases n
  {
    if n < 10 {
      DigitCharValue(n);
      DigitsSnoc("", DigitChar(n));
      assert Decimal(n) == "" + [DigitChar(n)];
    } else {
      var q, r := n / 10, n % 10;
      DecimalRoundTrip(q);
      DigitCharValue(r);
      DigitsSnoc(Decimal(q), DigitChar(r));
      assert Decimal(n) == Decimal(q) + [DigitChar(r)];
      assert 10 * q + r == n;
    }
  }

  lemma {:induction false} LeadingZeroesIgnored(s: string, z: nat)
    ensures DecimalValue(Zeros(z) + s) == DecimalValue(s)
    decreases |s|
  {
    var zs := Zeros(z);
    if |s| == 0 {
      assert zs + s == zs;
      AllZeroes(z);
    } else {
      LeadingZeroesIgnored(s[..|s| - 1], z);
      assert (zs + s)[..|zs + s| - 1] == zs + s[..|s| - 1];
    }
  }

  lemma {:induction false} AllZeroes(z: nat)
    ensures DecimalValue(Zeros(z)) == 0
    decreases z
  {
    if z > 0 {
      AllZeroes(z - 1);
      assert Zeros(z)[..z - 1] == Zeros(z - 1);
    }
  }

  lemma PaddedDecimal(n: nat)
    ensures var p := PadStart2(Decimal(n));
      IsDigits(p) && DecimalValue(p) == n
      && (n < 100 ==> |p| == 2)
  {
    var d := Decimal(n);
    DecimalRoundTrip(n);
    if |d| < 2 {
      LeadingZeroesIgnored(d, 2 - |d|);
    }
    if 10 <= n < 100 {
      assert Decimal(n / 10) == [DigitChar(n / 10)];
    }
  }

  /** The picture of `pm + ":" + ps` when both fields are digit strings. */
  lemma JoinedFields(pm: string, ps: string)
    requires IsDigits(pm)
    requires IsDigits(ps)
    requires |pm| >= 2 && |ps| == 2
    ensures var f := pm + ":" + ps;
      && |f| >= 5 && f[|f| - 3] == ':'
      && (forall k :: 0 <= k < |f| && k != |f| - 3 ==> '0' <= f[k] <= '9')
  {
    var f := pm + ":" + ps;
    forall k | 0 <= k < |f| && k != |f| - 3 ensures '0' <= f[k] <= '9' {
      if k < |pm| { assert f[k] == pm[k]; } else { assert f[k] == ps[k - |pm| - 1]; }
    }
  }

  /** The two fields of `pm + ":" + ps`, on either side of the ':'. */
  lemma FieldsOfJoined(pm: string, ps: string)
    requires |ps| == 2
    ensures var f := pm + ":" + ps;
      |f| >= 3 && f[..|f| - 3] == pm && f[|f| - 2..] == ps
  {
    var f := pm + ":" + ps;
    assert f[..|f| - 3] == pm;
    assert f[|f| - 2..] == ps;
  }

  /** For a non-negative time the display is the two padded fields joined
      by ':'. */
  lemma FormatTimeFields(s: real)
    requires s >= 0.0
    ensures Minutes(s) >= 0 && RemainingSeconds(s) >= 0
    ensures FormatTime(s) == ClockText(Minutes(s), RemainingSeconds(s))
  {
    ClockFields(s);
  }

  /** The display of `m` whole minutes and `sec` whole seconds. */
  function ClockText(m: nat, sec: nat): string {
    PadStart2(Decimal(m)) + ":" + PadStart2(Decimal(sec))
  }

  /** The clock text is digits, ':' and two digits. */
  lemma ClockTextShape(m: nat, sec: nat)
    requires sec <= 59
    ensures var f := ClockText(m, sec);
      && |f| >= 5 && f[|f| - 3] == ':'
      && (forall k :: 0 <= k < |f| && k != |f| - 3 ==> '0' <= f[k] <= '9')
  {
    PaddedDecimal(m);
    PaddedDecimal(sec);
    JoinedFields(PadStart2(Decimal(m)), PadStart2(Decimal(sec)));
  }

  /** The fields of the clock text read back as `m` and `sec`. */
  lemma ClockTextReadBack(m: nat, sec: nat)
    requires sec <= 59
    ensures var f := ClockText(m, sec);
      && |f| >= 3
      && DecimalValue(f[..|f| - 3]) == m
      && DecimalValue(f[|f| - 2..]) == sec
  {
    var pm, ps := PadStart2(Decimal(m)), PadStart2(Decimal(sec));
    PaddedDecimal(m);
    PaddedDecimal(sec);
    assert ClockText(m, sec) == pm + ":" + ps;
    FieldsOfJoined(pm, ps);
  }

  /** Reading the display back gives the whole seconds: for a non-negative
      time the text is digits, ':', two digits, and the minutes read times 60
      plus the seconds read equals `floor(s)`. */
  lemma FormatTimeRoundTrip(s: real)
    requires s >= 0.0
    ensures |FormatTime(s)| >= 5
    ensures FormatTime(s)[|FormatTime(s)| - 3] == ':'
    ensures forall k :: 0 <= k < |FormatTime(s)| && k != |FormatTime(s)| - 3 ==> '0' <= FormatTime(s)[k] <= '9'
    ensures DecimalValue(FormatTime(s)[..|FormatTime(s)| - 3]) * 60
            + DecimalValue(FormatTime(s)[|FormatTime(s)| - 2..]) == s.Floor
    ensures DecimalValue(FormatTime(s)[|FormatTime(s)| - 2..]) <= 59
  {
    ClockFields(s);
    FormatTimeFields(s);
    var m, sec := Minutes(s), RemainingSeconds(s);
    ClockTextShape(m, sec);
    ClockTextReadBack(m, sec);
  }

  /** Times under 100 minutes render as exactly "MM:SS". */
  lemma FormatTimeWidth(s: real)
    requires 0.0 <= s < 6000.0
    ensures |FormatTime(s)| == 5
  {
    ClockFields(s);
    PaddedDecimal(Minutes(s));
    PaddedDecimal(RemainingSeconds(s));
  }

  lemma FormatTimeOneMinute()
    ensures FormatTime(65.0) == "01:05"
  {
    assert Minutes(65.0) == 1;
    assert RemainingSeconds(65.0) == 5 by {
      assert Trunc(65.0 / 60.0) == 1;
    }
    FormatTimeFields(65.0);
    assert PadStart2("1") == "01" && PadStart2("5") == "05";
  }

  lemma FormatTimeZero()
    ensures FormatTime(0.0) == "00:00"
  {
    assert Minutes(0.0) == 0 && RemainingSeconds(0.0) == 0;
    FormatTimeFields(0.0);
    assert PadStart2("0") == "00";
  }

  lemma FormatTimeLastOfHour()
    ensures FormatTime(3599.0) == "59:59"
  {
    assert Minutes(3599.0) == 59;
    assert RemainingSeconds(3599.0) == 59 by {
      assert Trunc(3599.0 / 60.0) == 59;
    }
    FormatTimeFields(3599.0);
    assert Decimal(59) == "59" by {
      assert Decimal(5) == "5";
    }
  }
}
