/**
 * The player's clock display: whole seconds shown as minutes, a colon and
 * a two-digit seconds field.
 */
module TimeFormat {

  predicate IsDigit(c: char) {
    '0' <= c <= '9'
  }

  predicate AllDigits(s: string) {
    forall i :: 0 <= i < |s| ==> IsDigit(s[i])
  }

  function DigitChar(d: nat): (c: char)
    requires d < 10
    ensures IsDigit(c) && c as int - '0' as int == d
  {
    (d + '0' as int) as char
  }

  /** The number a string of decimal digits denotes (independent of how it was produced). */
  function DecimalValue(s: string): nat
    requires AllDigits(s)
    decreases |s|
  {
    if s == [] then 0 else 10 * DecimalValue(s[..|s| - 1]) + (s[|s| - 1] as int - '0' as int)
  }

  /** Number.prototype.toString for a natural number: shortest decimal form. */
  function ToDecimal(n: nat): (r: string)
    ensures |r| >= 1 && AllDigits(r)
    ensures n < 10 ==> |r| == 1
    ensures 10 <= n < 100 ==> |r| == 2
    ensures r[0] == '0' ==> n == 0
  {
    if n < 10 then [DigitChar(n)] else ToDecimal(n / 10) + [DigitChar(n % 10)]
  }

  lemma {:induction false} DecimalRoundTrip(n: nat)
    ensures DecimalValue(ToDecimal(n)) == n
  {
    if n >= 10 {
      DecimalRoundTrip(n / 10);
      var r := ToDecimal(n);
      assert r[..|r| - 1] == ToDecimal(n / 10);
    }
  }

  /** Leading zeros do not change the value of a digit string. */
  lemma {:induction false} LeadingZero(s: string)
    requires AllDigits(s)
    ensures AllDigits("0" + s) && DecimalValue("0" + s) == DecimalValue(s)
    decreases |s|
  {
    if s != [] {
      var t := "0" + s;
      LeadingZero(s[..|s| - 1]);
      assert t[..|t| - 1] == "0" + s[..|s| - 1];
    }
  }

  /** `n` copies of `c`. */
  function Repeat(c: char, n: nat): (r: string)
    ensures |r| == n && forall i :: 0 <= i < n ==> r[i] == c
  {
    if n == 0 then [] else [c] + Repeat(c, n - 1)
  }

  /** String.prototype.padStart with a one-character fill string. */
  function PadStart(s: string, width: nat, fill: char): (r: string)
    ensures |r| == if |s| < width then width else |s|
    ensures r[|r| - |s|..] == s
    ensures forall i :: 0 <= i < |r| - |s| ==> r[i] == fill
  {
    if |s| >= width then s else Repeat(fill, width - |s|) + s
  }

  /** formatTime: minutes, then ':', then the remaining seconds padded to two digits. */
  function FormatTime(seconds: nat): (r: string)
    ensures |r| >= 4 && r[|r| - 3] == ':'
  {
    FieldsOf(ToDecimal(seconds / 60), PadStart(ToDecimal(seconds % 60), 2, '0'));
    ToDecimal(seconds / 60) + ":" + PadStart(ToDecimal(seconds % 60), 2, '0')
  }

  /** The floor arithmetic of formatTime on a non-negative time: it splits the whole seconds. */
  lemma FloorSplit(x: real)
    requires x >= 0.0
    ensures (x / 60.0).Floor == x.Floor / 60
    ensures (x - 60.0 * (x / 60.0).Floor as real).Floor == x.Floor % 60
  {
    var f := x.Floor;
    var q, t := f / 60, f % 60;
    assert f == 60 * q + t && 0 <= t < 60;
    assert (60 * q) as real <= x < (60 * q + 60) as real;
    assert q as real <= x / 60.0 < (q + 1) as real;
    assert (x / 60.0).Floor == q;
    var r := x - 60.0 * q as real;
    assert t as real <= r < (t + 1) as real;
  }

  /**
   * formatTime on the media element's clock: floor(seconds / 60) minutes,
   * then floor(seconds % 60) padded to two digits (for a non-negative
   * time, seconds % 60 is seconds - 60 * minutes). It shows the whole
   * seconds of the time.
   */
  function FormatSeconds(seconds: real): (r: string)
    requires seconds >= 0.0
    ensures r == FormatTime(seconds.Floor)
  {
    FloorSplit(seconds);
    var minutes := (seconds / 60.0).Floor;
    var remaining := (seconds - 60.0 * minutes as real).Floor;
    ToDecimal(minutes) + ":" + PadStart(ToDecimal(remaining), 2, '0')
  }

  /** The minutes field: everything before the colon. */
  function MinutesField(r: string): string
    requires |r| >= 3
  {
    r[..|r| - 3]
  }

  /** The seconds field: the last two characters. */
  function SecondsField(r: string): string
    requires |r| >= 2
  {
    r[|r| - 2..]
  }

  /** The padded seconds field of a value below 60: two digits that read back as the value. */
  lemma SecondsFieldDigits(x: nat)
    requires x < 60
    ensures var ss := PadStart(ToDecimal(x), 2, '0');
      |ss| == 2 && AllDigits(ss) && DecimalValue(ss) == x
  {
    var d := ToDecimal(x);
    DecimalRoundTrip(x);
    if |d| == 1 {
      assert PadStart(d, 2, '0') == "0" + d;
      LeadingZero(d);
    }
  }

  /** Where the colon and the two fields sit in minutes + ":" + two characters. */
  lemma FieldsOf(m: string, ss: string)
    requires |ss| == 2
    ensures var r := m + ":" + ss;
      |r| == |m| + 3 && r[|r| - 3] == ':' && MinutesField(r) == m && SecondsField(r) == ss
  {
    var r := m + ":" + ss;
    assert r[..|m|] == m;
    assert r[|m| + 1..] == ss;
  }

  /**
   * The display reads back as the time it shows: a canonical minutes
   * field, a colon, exactly two seconds digits below 60, and
   * minutes * 60 + seconds is the input.
   */
  lemma FormatTimeFields(seconds: nat)
    ensures var r := FormatTime(seconds);
      && |r| >= 4 && r[|r| - 3] == ':'
      && AllDigits(MinutesField(r)) && AllDigits(SecondsField(r))
      && ToDecimal(DecimalValue(MinutesField(r))) == MinutesField(r)
      && DecimalValue(SecondsField(r)) < 60
      && DecimalValue(MinutesField(r)) * 60 + DecimalValue(SecondsField(r)) == seconds
  {
    var m, ss := ToDecimal(seconds / 60), PadStart(ToDecimal(seconds % 60), 2, '0');
    SecondsFieldDigits(seconds % 60);
    FieldsOf(m, ss);
    DecimalRoundTrip(seconds / 60);
  }

  /** Two different times never show the same display. */
  lemma FormatTimeInjective(a: nat, b: nat)
    requires FormatTime(a) == FormatTime(b)
    ensures a == b
  {
    FormatTimeFields(a);
    FormatTimeFields(b);
  }

  lemma FormatTimeExample()
    ensures FormatTime(65) == "1:05"
  {
    assert 65 / 60 == 1 && 65 % 60 == 5;
    assert ToDecimal(1) == "1" && ToDecimal(5) == "5";
    assert Repeat('0', 1) == "0";
    assert PadStart("5", 2, '0') == "05";
  }
}
