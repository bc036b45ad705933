// The checks a quantity string passes before an order is sent, and their agreement
// with the sizer.
module Validation {
  import opened Common
  import opened Decimal
  import opened Sizing

  const BOUND_SLACK: real := 0.0000000001
  const ALIGN_TOLERANCE: real := 0.000001

  datatype ValidationError =
    | BadFormat
    | NotPositive
    | BadStep
    | BelowMin
    | AboveMax
    | NotAMultiple
    | WrongPrecision
    | BadPrice
    | BelowMinNotional

  // q is within tolerance of a whole number of steps.
  predicate Aligned(q: real, step: real)
    requires step > 0.0
  {
    Abs(q - Round(q / step) as real * step) <= step * ALIGN_TOLERANCE
  }

  function AssertValidQuantityForSymbol(quantityStr: string, rules: Rules): Result<real, ValidationError>
    requires WellFormed(rules)
  {
    var s := Trim(quantityStr);
    if !IsPlainDecimal(s) then Err(BadFormat)
    else
      var q := ParseFloat(s);
      var min, max, step := ParseFloat(rules.minQty), ParseFloat(rules.maxQty), ParseFloat(rules.stepSize);
      if q <= 0.0 then Err(NotPositive)
      else if step <= 0.0 then Err(BadStep)
      else if q < min - BOUND_SLACK then Err(BelowMin)
      else if q > max + BOUND_SLACK then Err(AboveMax)
      else if !Aligned(q, step) then Err(NotAMultiple)
      else if ToFixed(q, CountDecimals(rules.stepSize)) != s then Err(WrongPrecision)
      else Ok(q)
  }

  function AssertMinNotionalMet(quantityStr: string, refPrice: real, rules: Rules): Result<(), ValidationError>
    requires IsPlainDecimal(quantityStr)
  {
    if refPrice <= 0.0 then Err(BadPrice)
    else if rules.minNotional > 0.0
        && NotionalForQuantity(quantityStr, refPrice) < rules.minNotional - NOTIONAL_SLACK then
      Err(BelowMinNotional)
    else Ok(())
  }

  // What acceptance means: a plain numeral in its canonical print, positive, within the lot
  // bounds to 1e-10, and a whole number of steps to a millionth of one.
  lemma AcceptedMeans(quantityStr: string, rules: Rules, q: real)
    requires WellFormed(rules) && AssertValidQuantityForSymbol(quantityStr, rules) == Ok(q)
    ensures var s, step := Trim(quantityStr), ParseFloat(rules.stepSize);
            && IsPlainDecimal(s) && q == ParseFloat(s) && s == ToFixed(q, CountDecimals(rules.stepSize))
            && step > 0.0 && q > 0.0
            && ParseFloat(rules.minQty) - 0.0000000001 <= q <= ParseFloat(rules.maxQty) + 0.0000000001
            && exists k: int :: NearMultiple(q, k, step)
  {
    AlignedMeans(q, ParseFloat(rules.stepSize));
  }

  ghost predicate NearMultiple(q: real, k: int, step: real) {
    Abs(q - Quantity(k, step)) <= step * 0.000001
  }

  lemma AlignedMeans(q: real, step: real)
    requires step > 0.0 && Aligned(q, step)
    ensures exists k: int :: NearMultiple(q, k, step)
  {
    assert NearMultiple(q, Round(q / step), step);
  }

  // An order that passes is worth the minimum notional, to 1e-8.
  lemma NotionalMeans(quantityStr: string, refPrice: real, rules: Rules)
    requires IsPlainDecimal(quantityStr)
    ensures AssertMinNotionalMet(quantityStr, refPrice, rules).Ok? <==>
            && refPrice > 0.0
            && (rules.minNotional <= 0.0 || rules.minNotional - 0.00000001 <= ParseFloat(quantityStr) * refPrice)
  {
  }

  // Digits at both ends: nothing to trim.
  lemma TrimPlain(s: string)
    requires IsPlainDecimal(s)
    ensures Trim(s) == s
  {
    var i := FirstDot(s);
    assert s[0] == s[..i][0];
    if i < |s| {
      assert s[|s| - 1] == s[i + 1..][|s| - i - 2];
    } else {
      assert s[|s| - 1] == s[..i][|s| - 1];
    }
  }

  lemma MultipleIsAligned(n: nat, step: real, q: real)
    requires step > 0.0 && Product(n as real, step, q)
    ensures Aligned(q, step)
  {
    MulCancel(n as real, step);
    assert Round(n as real) == n;
  }

  lemma MultiplePositive(n: nat, step: real, q: real)
    requires step > 0.0 && Product(n as real, step, q)
    ensures q > 0.0 <==> n > 0
  {
    if n > 0 {
      MulMonoStrict(0.0, n as real, step, 0.0, q);
    }
  }

  // Whatever the sizer hands out is accepted, and read back as exactly that many
  // steps, unless it is zero; and then that is the complaint.
  lemma SizedQuantityIsAccepted(s: string, n: nat, q: real, rules: Rules)
    requires WellFormed(rules) && ParseFloat(rules.stepSize) > 0.0 && FitsLot(s, n, q, rules)
    ensures IsPlainDecimal(s) && ParseFloat(s) == q
    ensures AssertValidQuantityForSymbol(s, rules) == if n > 0 then Ok(q) else Err(NotPositive)
    ensures ToFixed(q, CountDecimals(rules.stepSize)) == s
  {
    var step := ParseFloat(rules.stepSize);
    QuantityRoundTrip(q, n, rules.stepSize, step);
    TrimPlain(s);
    MultipleIsAligned(n, step, q);
    MultiplePositive(n, step, q);
  }

  // A minimum quantity above the slack rules the zero out.
  lemma PositiveMinimumIsNonZero(s: string, n: nat, q: real, rules: Rules)
    requires WellFormed(rules) && ParseFloat(rules.stepSize) > 0.0 && FitsLot(s, n, q, rules)
    requires ParseFloat(rules.minQty) > SLACK
    ensures n > 0
  {
    MultiplePositive(n, ParseFloat(rules.stepSize), q);
  }

  lemma EnoughNotional(q: real, price: real, minNotional: real, notional: real, tol: real)
    requires price > 0.0 && Product(q, price, notional) && NotionalQuantity(minNotional, price, tol) <= q
    ensures notional >= minNotional - tol
  {
    DivCompare(minNotional - tol, price, q, notional);
  }

  lemma SizedQuantityMeetsNotional(s: string, n: nat, q: real, refPrice: real, rules: Rules)
    requires WellFormed(rules) && ParseFloat(rules.stepSize) > 0.0 && FitsLot(s, n, q, rules) && refPrice > 0.0
    requires rules.minNotional > 0.0 ==> NotionalQuantity(rules.minNotional, refPrice, NOTIONAL_SLACK) <= q
    ensures IsPlainDecimal(s) && AssertMinNotionalMet(s, refPrice, rules) == Ok(())
  {
    SizedQuantityIsAccepted(s, n, q, rules);
    if rules.minNotional > 0.0 {
      NotionalOf(s, q, refPrice);
      EnoughNotional(q, refPrice, rules.minNotional, NotionalForQuantity(s, refPrice), NOTIONAL_SLACK);
    }
  }

  // The inputs on which the sizer rounds down to nothing: the budget does not cover one
  // step, and neither minimum asks for one.
  predicate SizesToZero(usd: real, refPrice: real, rules: Rules)
    requires WellFormed(rules) && refPrice > 0.0 && ParseFloat(rules.stepSize) > 0.0
  {
    && Quotient(Quotient(usd, refPrice), ParseFloat(rules.stepSize)) + SLACK < 1.0
    && ParseFloat(rules.minQty) <= SLACK && rules.minNotional <= NOTIONAL_SLACK
  }

  // What the sizer returns, as its contract gives it.
  function Sized(usd: real, refPrice: real, rules: Rules): Result<string, SizingError>
    requires WellFormed(rules)
  {
    Printed(StepsFor(usd, refPrice, rules), rules.stepSize, ParseFloat(rules.stepSize))
  }

  lemma SizedPasses(usd: real, refPrice: real, rules: Rules)
    requires WellFormed(rules) && Sized(usd, refPrice, rules).Ok?
    ensures usd > 0.0 && refPrice > 0.0 && ParseFloat(rules.stepSize) > 0.0
    ensures var s := Sized(usd, refPrice, rules).value;
            && (AssertValidQuantityForSymbol(s, rules).Ok? <==> StepsFor(usd, refPrice, rules) != Ok(0))
            && IsPlainDecimal(s) && AssertMinNotionalMet(s, refPrice, rules) == Ok(())
  {
    var n, s := StepsFor(usd, refPrice, rules).value, Sized(usd, refPrice, rules).value;
    SizerFits(usd, refPrice, rules, n);
    var q := QuantityOf(n, ParseFloat(rules.stepSize));
    SizedQuantityIsAccepted(s, n, q, rules);
    SizedQuantityMeetsNotional(s, n, q, refPrice, rules);
  }

  // The sizer succeeds and the validator refuses exactly on those inputs.
  lemma RefusedExactlyWhenZero(usd: real, refPrice: real, rules: Rules)
    requires WellFormed(rules) && usd > 0.0 && refPrice > 0.0 && ParseFloat(rules.stepSize) > 0.0
    ensures Sized(usd, refPrice, rules).Ok?
            && AssertValidQuantityForSymbol(Sized(usd, refPrice, rules).value, rules).Err? <==>
            SizesToZero(usd, refPrice, rules)
  {
    SizerZeroIff(usd, refPrice, rules);
    if Sized(usd, refPrice, rules).Ok? {
      SizedPasses(usd, refPrice, rules);
    }
  }

  // Size, then validate, on any filters: the two disagree only about a zero.
  method SizeThenValidate(usd: real, refPrice: real, rules: Rules) returns (r: Result<string, SizingError>)
    requires WellFormed(rules)
    ensures r.Ok? ==>
              && usd > 0.0 && refPrice > 0.0 && ParseFloat(rules.stepSize) > 0.0
              && (AssertValidQuantityForSymbol(r.value, rules).Ok? <==> !SizesToZero(usd, refPrice, rules))
              && IsPlainDecimal(r.value) && AssertMinNotionalMet(r.value, refPrice, rules).Ok?
    ensures r == Sized(usd, refPrice, rules)
  {
    r := UsdNotionalToBaseQuantity(usd, refPrice, rules);
    if r.Ok? {
      SizedPasses(usd, refPrice, rules);
      RefusedExactlyWhenZero(usd, refPrice, rules);
    }
  }

  const WHOLE_UNITS: Rules := Rules("0", "9", "1", 0.0)

  // Without minimums, half a unit's worth of money sizes to a zero that the validator
  // refuses.
  lemma ZeroQuantityIsRefused()
    ensures WellFormed(WHOLE_UNITS) && Sized(0.5, 1.0, WHOLE_UNITS) == Ok("0")
    ensures AssertValidQuantityForSymbol("0", WHOLE_UNITS) == Err(NotPositive)
  {
    OneDigit("0", 0);
    OneDigit("1", 1);
    OneDigit("9", 9);
    SizerZeroIff(0.5, 1.0, WHOLE_UNITS);
    ZeroPrints();
    ZeroSteps(1.0);
    SizerFits(0.5, 1.0, WHOLE_UNITS, 0);
    SizedQuantityIsAccepted("0", 0, 0.0, WHOLE_UNITS);
  }

  lemma ZeroPrints()
    ensures ToFixed(0.0, 0) == "0"
  {
    assert Shift(0.0, 0) == 0.0;
    assert DigitsOf(0, 1) == "0";
  }

  lemma OneDigit(s: string, d: nat)
    requires |s| == 1 && IsDigit(s[0]) && DigitValue(s[0]) == d
    ensures IsPlainDecimal(s) && ParseFloat(s) == d as real && CountDecimals(s) == 0
  {
    assert s == s + "";
    FirstDotOfDigits(s, "");
    assert s[..1] == s;
    assert s[..0] == "";
    assert DigitsValue("") == 0;
    assert s[..1] + "" == s;
  }
}
