// Decimal strings as the exchange exchanges them: printing with a fixed number of
// fraction digits, reading them back, and counting the digits a step size needs.
module Decimal {
  import opened Common

  // units / 10^scale
  function Scaled(units: nat, scale: nat): real {
    if scale == 0 then units as real else Scaled(units, scale - 1) / 10.0
  }

  // x * 10^places
  function Shift(x: real, places: nat): real {
    if places == 0 then x else 10.0 * Shift(x, places - 1)
  }

  predicate IsDigit(c: char) {
    '0' <= c <= '9'
  }

  predicate AllDigits(s: string) {
    forall i :: 0 <= i < |s| ==> IsDigit(s[i])
  }

  function DigitValue(c: char): nat
    requires IsDigit(c)
  {
    c as int - '0' as int
  }

  function DigitChar(d: nat): (c: char)
    requires d < 10
    ensures IsDigit(c) && DigitValue(c) == d
  {
    ('0' as int + d) as char
  }

  function DigitsValue(s: string): nat
    requires AllDigits(s)
  {
    if s == "" then 0 else 10 * DigitsValue(s[..|s| - 1]) + DigitValue(s[|s| - 1])
  }

  // The digits of n, zero padded on the left to at least `width` of them.
  function DigitsOf(n: nat, width: nat): (s: string)
    ensures AllDigits(s) && DigitsValue(s) == n
    ensures |s| >= width && |s| >= 1
    ensures |s| > width && |s| > 1 ==> s[0] != '0'
    decreases width, n
  {
    if n < 10 && width <= 1 then [DigitChar(n)]
    else DigitsOf(n / 10, if width <= 1 then width else width - 1) + [DigitChar(n % 10)]
  }

  // The print of units / 10^d with exactly d fraction digits.
  function PrintFixed(units: nat, d: nat): string {
    var t := DigitsOf(units, d + 1);
    if d == 0 then t else t[..|t| - d] + "." + t[|t| - d..]
  }

  // Number.prototype.toFixed
  function ToFixed(x: real, d: nat): string {
    if x >= 0.0 then
      ShiftNonNegative(x, d);
      PrintFixed(Round(Shift(x, d)), d)
    else
      ShiftNonNegative(-x, d);
      "-" + PrintFixed(Round(Shift(-x, d)), d)
  }

  function FirstDot(s: string): (i: nat)
    ensures i <= |s|
    ensures '.' !in s[..i]
    ensures i < |s| ==> s[i] == '.'
  {
    if s == "" || s[0] == '.' then 0 else 1 + FirstDot(s[1..])
  }

  // The format check: digits, optionally followed by a dot and more digits.
  predicate IsPlainDecimal(s: string) {
    var i := FirstDot(s);
    i > 0 && AllDigits(s[..i]) && (i == |s| || (i + 1 < |s| && AllDigits(s[i + 1..])))
  }

  function Fraction(s: string): string {
    var i := FirstDot(s);
    if i == |s| then "" else s[i + 1..]
  }

  // All digits of a decimal string, the dot removed, read as one integer.
  function Units(s: string): nat
    requires IsPlainDecimal(s)
  {
    DigitsValue(s[..FirstDot(s)] + Fraction(s))
  }

  // parseFloat on a string that passes the format check.
  function ParseFloat(s: string): real
    requires IsPlainDecimal(s)
  {
    Scaled(Units(s), |Fraction(s)|)
  }

  function StripZeros(s: string): string {
    if s != "" && s[|s| - 1] == '0' then StripZeros(s[..|s| - 1]) else s
  }

  function CountDecimals(stepSize: string): nat {
    if '.' !in stepSize then 0 else |Fraction(StripZeros(stepSize))|
  }

  lemma {:induction false} ShiftNonNegative(x: real, d: nat)
    requires x >= 0.0
    ensures Shift(x, d) >= 0.0
  {
    if d == 0 {
    } else {
      ShiftNonNegative(x, d - 1);
    }
  }

  lemma {:induction false} ShiftTenth(x: real, d: nat)
    ensures Shift(x / 10.0, d) == Shift(x, d) / 10.0
  {
    if d == 0 {
    } else {
      ShiftTenth(x, d - 1);
    }
  }

  lemma {:induction false} ShiftScaled(units: nat, d: nat)
    ensures Shift(Scaled(units, d), d) == units as real
  {
    if d == 0 {
    } else {
      ShiftTenth(Scaled(units, d - 1), d - 1);
      ShiftScaled(units, d - 1);
    }
  }

  lemma {:induction false} ScaledSign(units: nat, d: nat)
    ensures Scaled(units, d) >= 0.0
    ensures Scaled(units, d) == 0.0 <==> units == 0
  {
    if d == 0 {
    } else {
      ScaledSign(units, d - 1);
    }
  }

  lemma {:induction false} ScaledTen(units: nat, d: nat)
    ensures Scaled(10 * units, d + 1) == Scaled(units, d)
  {
    if d == 0 {
    } else {
      ScaledTen(units, d - 1);
    }
  }

  // A whole number of units times n is n times as many units.
  lemma {:induction false} ScaledTimes(n: nat, units: nat, d: nat)
    ensures Scaled(n * units, d) == n as real * Scaled(units, d)
  {
    if d > 0 {
      ScaledTimes(n, units, d - 1);
      TenthOfProduct(n as real, Scaled(units, d - 1));
    } else {
      MulAsReal(n, units);
    }
  }

  lemma TenthOfProduct(a: real, b: real)
    ensures a * b / 10.0 == a * (b / 10.0)
  {
  }

  lemma {:induction false} FirstDotOfDigits(a: string, rest: string)
    requires AllDigits(a)
    requires rest == "" || rest[0] == '.'
    ensures FirstDot(a + rest) == |a|
  {
    if a == "" {
      assert a + rest == rest;
    } else {
      assert (a + rest)[0] == a[0] && IsDigit(a[0]);
      assert (a + rest)[1..] == a[1..] + rest;
      FirstDotOfDigits(a[1..], rest);
    }
  }

  // Printing then reading is the identity, on the scale that was printed.
  lemma PrintParse(units: nat, d: nat)
    ensures IsPlainDecimal(PrintFixed(units, d))
    ensures Units(PrintFixed(units, d)) == units
    ensures |Fraction(PrintFixed(units, d))| == d
  {
    var s := PrintFixed(units, d);
    var t := DigitsOf(units, d + 1);
    if d == 0 {
      assert s == s + "";
      FirstDotOfDigits(s, "");
      assert s[..|s|] + "" == s;
    } else {
      var hi, lo := t[..|t| - d], t[|t| - d..];
      assert s == hi + ("." + lo);
      FirstDotOfDigits(hi, "." + lo);
      assert s[..|hi|] == hi && s[|hi| + 1..] == lo;
      assert hi + lo == t;
    }
  }

  // Numbers on the d-digit grid survive toFixed(d) followed by parseFloat.
  lemma ToFixedParse(units: nat, d: nat)
    ensures Scaled(units, d) >= 0.0
    ensures ToFixed(Scaled(units, d), d) == PrintFixed(units, d)
    ensures IsPlainDecimal(PrintFixed(units, d))
    ensures ParseFloat(PrintFixed(units, d)) == Scaled(units, d)
  {
    ScaledSign(units, d);
    ShiftScaled(units, d);
    PrintParse(units, d);
    assert (units as real + 0.5).Floor == units;
  }

  // A trailing zero of the fraction does not count.
  lemma CountDecimalsDropZero(hi: string, frac: string)
    ensures CountDecimals(hi + "." + (frac + "0")) == CountDecimals(hi + "." + frac)
  {
    var s := hi + "." + (frac + "0");
    var t := hi + "." + frac;
    assert s[|hi|] == '.' && t[|hi|] == '.';
    assert StripZeros(s) == StripZeros(t) by {
      assert s[|s| - 1] == '0' && s[..|s| - 1] == t;
    }
  }

  // Otherwise every fraction digit counts.
  lemma CountDecimalsExact(hi: string, frac: string)
    requires AllDigits(hi)
    requires frac == "" || frac[|frac| - 1] != '0'
    ensures CountDecimals(hi + "." + frac) == |frac|
  {
    var s := hi + "." + frac;
    assert s[|hi|] == '.';
    assert StripZeros(s) == s;
    assert s == hi + ("." + frac);
    FirstDotOfDigits(hi, "." + frac);
  }

  // Dropping the trailing zeros of a fraction leaves the value on the shorter grid.
  lemma {:induction false} StripZerosGrid(hi: string, frac: string) returns (m: nat)
    requires AllDigits(hi) && AllDigits(frac)
    ensures AllDigits(hi + frac)
    ensures Scaled(m, CountDecimals(hi + "." + frac)) == Scaled(DigitsValue(hi + frac), |frac|)
  {
    if frac != "" && frac[|frac| - 1] == '0' {
      var frac' := frac[..|frac| - 1];
      assert frac == frac' + "0";
      CountDecimalsDropZero(hi, frac');
      m := StripZerosGrid(hi, frac');
      assert (hi + frac)[..|hi + frac| - 1] == hi + frac';
      ScaledTen(DigitsValue(hi + frac'), |frac'|);
    } else {
      CountDecimalsExact(hi, frac);
      m := DigitsValue(hi + frac);
    }
  }

  // A decimal string is a whole number of 10^-CountDecimals units.
  lemma OnOwnGrid(s: string) returns (m: nat)
    requires IsPlainDecimal(s)
    ensures Scaled(m, CountDecimals(s)) == ParseFloat(s)
  {
    var i := FirstDot(s);
    if i == |s| {
      assert '.' !in s;
      m := Units(s);
    } else {
      assert s == s[..i] + "." + s[i + 1..];
      m := StripZerosGrid(s[..i], s[i + 1..]);
    }
  }
}
