/**
 * The fixed-point text form in which a worktime is stored, and the parts of
 * Python's number handling that the tracker relies on:
 *   - `round(x, 2)`: the nearest hundredth, ties to even, here on exact reals;
 *   - `"{0:.2f}".format(v)`: a sign, the whole part, a dot and two digits;
 *   - `float(s)`: reading such text back (the decimal-numeral subset).
 * Hours are handled as integer hundredths between rounding and formatting.
 */
module Decimal {
  import opened Wrappers

  predicate IsDigit(c: char) {
    '0' <= c <= '9'
  }

  predicate AllDigits(s: string) {
    forall i :: 0 <= i < |s| ==> IsDigit(s[i])
  }

  function DigitValue(c: char): nat
    requires IsDigit(c)
  {
    c as int - '0' as int
  }

  function DigitChar(d: nat): (c: char)
    requires d < 10
    ensures IsDigit(c) && DigitValue(c) == d
  {
    ('0' as int + d) as char
  }

  /** The decimal numeral of `n`, without leading zeros. */
  function NatToDigits(n: nat): (s: string)
    ensures |s| > 0 && AllDigits(s)
    ensures n > 0 ==> s[0] != '0'
    ensures |s| == 1 || s[0] != '0'
    decreases n
  {
    if n < 10 then [DigitChar(n)] else NatToDigits(n / 10) + [DigitChar(n % 10)]
  }

  function Pow10(k: nat): (p: nat)
    ensures p > 0
  {
    if k == 0 then 1 else 10 * Pow10(k - 1)
  }

  /**
   * `float` over an unsigned decimal numeral, read left to right: digits
   * before the dot build `whole`, digits after it build `fraction` over
   * `places` decimal places. At most one dot, and at least one digit in all.
   */
  function ScanUnsigned(s: string, afterDot: bool, whole: nat, fraction: nat, places: nat, anyDigit: bool): Option<real>
    decreases |s|
  {
    if s == [] then
      if anyDigit then Some(whole as real + fraction as real / Pow10(places) as real) else None
    else if IsDigit(s[0]) then
      if afterDot then ScanUnsigned(s[1..], true, whole, 10 * fraction + DigitValue(s[0]), places + 1, true)
      else ScanUnsigned(s[1..], false, 10 * whole + DigitValue(s[0]), fraction, places, true)
    else if s[0] == '.' && !afterDot then
      ScanUnsigned(s[1..], true, whole, fraction, places, anyDigit)
    else
      None
  }

  /** `float(s)` on a decimal numeral with an optional sign; `None` where Python raises ValueError. */
  function ParseDecimal(s: string): Option<real> {
    if |s| > 0 && s[0] == '-' then
      match ScanUnsigned(s[1..], false, 0, 0, 0, false)
      case Some(v) => Some(-v)
      case None => None
    else if |s| > 0 && s[0] == '+' then
      ScanUnsigned(s[1..], false, 0, 0, 0, false)
    else
      ScanUnsigned(s, false, 0, 0, 0, false)
  }

  /** `round(x, 2)` in hundredths: the nearest whole number of hundredths, ties going to the even one. */
  function RoundHundredths(x: real): (r: int)
    ensures r as real - 0.5 <= 100.0 * x <= r as real + 0.5
    ensures (100.0 * x == r as real - 0.5 || 100.0 * x == r as real + 0.5) ==> r % 2 == 0
  {
    var y := 100.0 * x;
    var f := y.Floor;
    var d := y - f as real;
    if d < 0.5 then f
    else if d > 0.5 then f + 1
    else if f % 2 == 0 then f
    else f + 1
  }

  /** `"{0:.2f}".format(h / 100)`: a '-' for negatives, the whole hours, a dot and exactly two digits. */
  function FormatHundredths(h: int): (s: string)
    ensures |s| >= 4 && s[|s| - 3] == '.' && IsDigit(s[|s| - 2]) && IsDigit(s[|s| - 1])
    ensures (s[0] == '-') == (h < 0)
    ensures IsDigit(s[if h < 0 then 1 else 0])
  {
    var a := if h < 0 then -h else h;
    var cents := a % 100;
    (if h < 0 then "-" else "") + NatToDigits(a / 100) + "." + [DigitChar(cents / 10), DigitChar(cents % 10)]
  }

  lemma ShiftDigit(whole: nat, p: nat, n: nat)
    ensures 10 * (whole * p + n / 10) + n % 10 == whole * (10 * p) + n
  {
    assert 10 * (whole * p) == whole * (10 * p);
  }

  /** Scanning the numeral of `n` before the dot shifts `n` into the whole part. */
  lemma {:induction false} ScanNat(n: nat, rest: string, whole: nat, anyDigit: bool)
    ensures ScanUnsigned(NatToDigits(n) + rest, false, whole, 0, 0, anyDigit)
            == ScanUnsigned(rest, false, whole * Pow10(|NatToDigits(n)|) + n, 0, 0, true)
    decreases n
  {
    var digits := NatToDigits(n);
    if n < 10 {
      assert (digits + rest)[1..] == rest;
      assert Pow10(1) == 10;
    } else {
      var prefix := NatToDigits(n / 10);
      var c := DigitChar(n % 10);
      assert digits == prefix + [c];
      assert digits + rest == prefix + ([c] + rest);
      ScanNat(n / 10, [c] + rest, whole, anyDigit);
      var p := Pow10(|prefix|);
      var shifted := whole * p + n / 10;
      assert ([c] + rest)[1..] == rest;
      assert ScanUnsigned([c] + rest, false, shifted, 0, 0, true)
             == ScanUnsigned(rest, false, 10 * shifted + n % 10, 0, 0, true);
      assert Pow10(|digits|) == 10 * p;
      ShiftDigit(whole, p, n);
    }
  }

  /** The text after the sign reads back as the whole hours plus the two-digit fraction. */
  lemma UnsignedRoundTrip(hours: nat, cents: nat)
    requires cents < 100
    ensures ScanUnsigned(NatToDigits(hours) + "." + [DigitChar(cents / 10), DigitChar(cents % 10)], false, 0, 0, 0, false)
            == Some(hours as real + cents as real / 100.0)
  {
    var high, low := DigitChar(cents / 10), DigitChar(cents % 10);
    var tail := "." + [high, low];
    assert NatToDigits(hours) + "." + [high, low] == NatToDigits(hours) + tail;
    ScanNat(hours, tail, 0, false);
    assert tail[1..] == [high, low];
    assert [high, low][1..] == [low];
    assert [low][1..] == [];
    assert ScanUnsigned(tail, false, hours, 0, 0, true) == ScanUnsigned([high, low], true, hours, 0, 0, true);
    assert ScanUnsigned([high, low], true, hours, 0, 0, true) == ScanUnsigned([low], true, hours, cents / 10, 1, true);
    assert ScanUnsigned([low], true, hours, cents / 10, 1, true) == ScanUnsigned([], true, hours, cents, 2, true);
    assert Pow10(2) == 100 by {
      assert Pow10(1) == 10;
    }
  }

  /** Reading back the two-decimal text gives exactly the number of hundredths it was made from. */
  lemma FormatParseRoundTrip(h: int)
    ensures ParseDecimal(FormatHundredths(h)) == Some(h as real / 100.0)
  {
    var a := if h < 0 then -h else h;
    var hours, cents := a / 100, a % 100;
    var body := NatToDigits(hours) + "." + [DigitChar(cents / 10), DigitChar(cents % 10)];
    var value := hours as real + cents as real / 100.0;
    UnsignedRoundTrip(hours, cents);
    assert value == a as real / 100.0 by {
      assert a == 100 * hours + cents;
      assert a as real == 100.0 * hours as real + cents as real;
    }
    var s := FormatHundredths(h);
    assert s == (if h < 0 then "-" else "") + body;
    if h < 0 {
      assert s[1..] == body;
      assert ParseDecimal(s) == Some(-value);
    } else {
      assert s == body;
      assert IsDigit(s[0]) by {
        assert s[0] == NatToDigits(hours)[0];
      }
      assert ParseDecimal(s) == Some(value);
    }
  }
}
