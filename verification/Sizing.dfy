// Order sizing for the exchange's lot rules: from a quote budget to a quantity
// string, and the validator that string has to pass before an order is sent.
// Numbers are exact; the slacks the code adds to its comparisons are kept.
module Sizing {
  import opened Common
  import opened Decimal

  datatype Rules = Rules(minQty: string, maxQty: string, stepSize: string, minNotional: real)

  // The filters hold plain decimal numerals.
  predicate WellFormed(rules: Rules) {
    IsPlainDecimal(rules.minQty) && IsPlainDecimal(rules.maxQty) && IsPlainDecimal(rules.stepSize)
  }

  const SLACK: real := 0.000000000001
  const NOTIONAL_SLACK: real := 0.00000001

  datatype SizingError =
    | UsdNotPositive
    | PriceNotPositive
    | InvalidStep
    | AboveMaxQty
    | BelowMinQty
    | MinNotionalUnreachable

  // ----- Printed quantities -----

  // A whole number of steps prints without loss at the digits of the step size, and
  // reads back as the same multiple.
  lemma QuantityRoundTrip(q: real, n: nat, stepSize: string, step: real)
    requires IsPlainDecimal(stepSize) && step == ParseFloat(stepSize) && Product(n as real, step, q)
    ensures q >= 0.0
    ensures IsPlainDecimal(ToFixed(q, CountDecimals(stepSize)))
    ensures ParseFloat(ToFixed(q, CountDecimals(stepSize))) == q
  {
    var units := MultipleOnGrid(q, n, stepSize, step);
    GridPrints(units, CountDecimals(stepSize), q);
  }

  lemma MultipleOnGrid(q: real, n: nat, stepSize: string, step: real) returns (units: nat)
    requires IsPlainDecimal(stepSize) && step == ParseFloat(stepSize) && Product(n as real, step, q)
    ensures Scaled(units, CountDecimals(stepSize)) == q
  {
    var m := OnOwnGrid(stepSize);
    units := TimesOnGrid(n, m, CountDecimals(stepSize), step, q);
  }

  lemma TimesOnGrid(n: nat, m: nat, d: nat, x: real, q: real) returns (units: nat)
    requires Scaled(m, d) == x && q == n as real * x
    ensures Scaled(units, d) == q
  {
    ScaledTimes(n, m, d);
    units := n * m;
  }

  lemma GridPrints(units: nat, d: nat, q: real)
    requires Scaled(units, d) == q
    ensures q >= 0.0 && IsPlainDecimal(ToFixed(q, d)) && ParseFloat(ToFixed(q, d)) == q
  {
    ToFixedParse(units, d);
  }

  // ----- Step counts -----

  // The quantity of n steps.
  function Quantity(n: int, step: real): real {
    n as real * step
  }

  // Whole steps a quantity covers, with the slack the code adds before flooring.
  function BudgetSteps(quantity: real, step: real, eps: real): int
    requires step > 0.0
  {
    (quantity / step + eps).Floor
  }

  // Fewest steps reaching a required amount.
  function StepsToReach(amount: real, step: real): int
    requires step > 0.0
  {
    Ceil(amount / step)
  }

  // The step count the code settles on: floor, then lift to the minimum.
  function RoundedSteps(quantity: real, step: real, minQ: real, eps: real): int
    requires step > 0.0
  {
    var f := BudgetSteps(quantity, step, eps);
    if Quantity(f, step) < minQ - eps then Ceil(minQ / step - eps) else f
  }

  // The same as one maximum.
  function LotSteps(quantity: real, step: real, minQ: real, eps: real): int
    requires step > 0.0
  {
    MaxInt(BudgetSteps(quantity, step, eps), StepsToReach(minQ, step))
  }

  // StepsToReach is the least such count.
  lemma StepsToReachIsLeast(amount: real, step: real, n: int, q: real)
    requires step > 0.0 && q == n as real * step
    ensures q >= amount <==> n >= StepsToReach(amount, step)
  {
    DivCompare(amount, step, n as real, q);
    CeilIsLeast(amount / step, n);
  }

  // BudgetSteps is the greatest count the quantity covers, to within the slack.
  lemma BudgetStepsIsGreatest(quantity: real, step: real, eps: real, k: int, q: real)
    requires step > 0.0 && q == (k as real - eps) * step
    ensures q <= quantity <==> k <= BudgetSteps(quantity, step, eps)
  {
    DivCompare(quantity, step, k as real - eps, q);
    FloorIsGreatest(quantity / step + eps, k);
  }

  lemma FloorIsGreatest(x: real, n: int)
    ensures n as real <= x <==> n <= x.Floor
  {
  }

  lemma CeilIsLeast(x: real, n: int)
    ensures n as real >= x <==> n >= Ceil(x)
  {
  }

  // ----- The lot grid -----

  // All three filters are whole numbers of one unit, and the slack can be mistaken
  // neither for a unit nor for a fraction of a step.
  ghost predicate OnGrid(step: real, minQ: real, maxQ: real, eps: real, unit: real, stepU: nat, minU: nat, maxU: nat) {
    && 0.0 < eps < unit && 0 < stepU && stepU as real * eps < 1.0
    && step == stepU as real * unit
    && minQ == minU as real * unit
    && maxQ == maxU as real * unit
  }

  ghost predicate Gridded(step: real, minQ: real, maxQ: real, eps: real) {
    exists unit, stepU, minU, maxU :: OnGrid(step, minQ, maxQ, eps, unit, stepU, minU, maxU)
  }

  // Filters written with eight fraction digits and a step below 10^4, as the
  // exchange writes them, are on such a grid.
  lemma EightDigitRulesAreGridded(rules: Rules)
    requires WellFormed(rules)
    requires |Fraction(rules.minQty)| == |Fraction(rules.maxQty)| == |Fraction(rules.stepSize)| == 8
    requires 0.0 < ParseFloat(rules.stepSize) < 10000.0
    ensures Gridded(ParseFloat(rules.stepSize), ParseFloat(rules.minQty), ParseFloat(rules.maxQty), SLACK)
  {
    var a, b, c := Units(rules.minQty), Units(rules.maxQty), Units(rules.stepSize);
    EightDigits(a);
    EightDigits(b);
    EightDigits(c);
    assert OnGrid(ParseFloat(rules.stepSize), ParseFloat(rules.minQty), ParseFloat(rules.maxQty), SLACK, 0.00000001, c,
                  a, b);
  }

  lemma EightDigits(units: nat)
    ensures Scaled(units, 8) == units as real * 0.00000001
  {
    assert Scaled(units, 0) == units as real;
    assert Scaled(units, 1) == units as real / 10.0;
    assert Scaled(units, 2) == units as real / 100.0;
    assert Scaled(units, 3) == units as real / 1000.0;
    assert Scaled(units, 4) == units as real / 10000.0;
    assert Scaled(units, 5) == units as real / 100000.0;
    assert Scaled(units, 6) == units as real / 1000000.0;
    assert Scaled(units, 7) == units as real / 10000000.0;
  }

  lemma WholeGap(c: int, b: nat, a: nat, cb: real)
    requires cb == c as real * b as real && cb < a as real
    ensures cb <= a as real - 1.0
  {
    var p := c * b;
    MulAsReal(c, b);
    assert p < a;
  }

  // No whole number falls in the slack below a fraction with a small denominator.
  lemma SlackHoldsNoInteger(c: int, x: real, a: nat, b: nat, eps: real)
    requires 0 < b && b as real * eps < 1.0 && x * b as real == a as real
    requires c as real < x
    ensures c as real < x - eps
  {
    var y := x - eps;
    var cb, xb, yb, be := c as real * b as real, x * b as real, y * b as real, b as real * eps;
    assert yb == xb - be;
    MulMonoStrict(c as real, x, b as real, cb, xb);
    WholeGap(c, b, a, cb);
    if y <= c as real {
      MulMono(y, c as real, b as real, yb, cb);
    }
  }

  lemma CeilIgnoresSlack(x: real, a: nat, b: nat, eps: real)
    requires 0 < b && 0.0 < eps && b as real * eps < 1.0 && x * b as real == a as real
    ensures Ceil(x - eps) == Ceil(x)
  {
    var c := Ceil(x - eps);
    if c as real < x {
      SlackHoldsNoInteger(c, x, a, b, eps);
    }
  }

  lemma GridDifference(f: int, stepU: nat, boundU: nat, unit: real, q: real, bound: real)
    requires q == f as real * (stepU as real * unit) && bound == boundU as real * unit
    ensures q - bound == (f * stepU - boundU) as real * unit
  {
    var p := f * stepU;
    MulAsReal(f, stepU);
    assert q == p as real * unit;
  }

  lemma SlackCollapses(d: int, unit: real, eps: real, du: real)
    requires 0.0 < eps < unit && du == d as real * unit
    ensures du < -eps <==> du < 0.0
    ensures du > eps <==> du > 0.0
  {
    if d <= -1 {
      MulMono(d as real, -1.0, unit, du, -unit);
    } else if d >= 1 {
      MulMono(1.0, d as real, unit, unit, du);
    }
  }

  // A bound on the lot, on the grid: the slack never changes a decision.
  lemma GridBound(f: int, step: real, bound: real, unit: real, stepU: nat, boundU: nat, eps: real, q: real)
    requires 0.0 < eps < unit && q == f as real * step
    requires step == stepU as real * unit && bound == boundU as real * unit
    ensures q < bound - eps <==> q < bound
    ensures q > bound + eps <==> q > bound
  {
    GridDifference(f, stepU, boundU, unit, q, bound);
    SlackCollapses(f * stepU - boundU, unit, eps, q - bound);
  }

  lemma GridCeil(step: real, minQ: real, unit: real, stepU: nat, minU: nat, eps: real)
    requires 0.0 < eps < unit && 0 < stepU && stepU as real * eps < 1.0
    requires step == stepU as real * unit && minQ == minU as real * unit
    ensures step > 0.0 && Ceil(minQ / step - eps) == StepsToReach(minQ, step)
  {
    MulMonoStrict(0.0, stepU as real, unit, 0.0, step);
    DivCommonFactor(minU as real, stepU as real, unit);
    assert minQ == unit * minU as real && step == unit * stepU as real;
    CeilIgnoresSlack(minQ / step, minU, stepU, eps);
  }

  // On the grid the rounding is the maximum of its two bounds.
  lemma RoundedIsLotSteps(quantity: real, step: real, minQ: real, maxQ: real, eps: real)
    requires step > 0.0 && Gridded(step, minQ, maxQ, eps)
    ensures RoundedSteps(quantity, step, minQ, eps) == LotSteps(quantity, step, minQ, eps)
  {
    var unit, stepU, minU, maxU :| OnGrid(step, minQ, maxQ, eps, unit, stepU, minU, maxU);
    var f := BudgetSteps(quantity, step, eps);
    var fq := f as real * step;
    GridBound(f, step, minQ, unit, stepU, minU, eps, fq);
    GridCeil(step, minQ, unit, stepU, minU, eps);
    StepsToReachIsLeast(minQ, step, f, fq);
  }

  lemma LotBounds(n: int, q: real, step: real, minQ: real, maxQ: real, eps: real)
    requires step > 0.0 && Gridded(step, minQ, maxQ, eps)
    requires n >= StepsToReach(minQ, step) && Product(n as real, step, q)
    ensures q >= minQ
    ensures q > maxQ + eps <==> q > maxQ
    ensures eps > 0.0
  {
    var unit, stepU, minU, maxU :| OnGrid(step, minQ, maxQ, eps, unit, stepU, minU, maxU);
    GridBound(n, step, maxQ, unit, stepU, maxU, eps, q);
    StepsToReachIsLeast(minQ, step, n, q);
  }

  lemma RoundedNonNegative(quantity: real, step: real, minQ: real, eps: real)
    requires step > 0.0 && minQ >= 0.0 && quantity >= 0.0 && 0.0 < eps < 1.0
    ensures RoundedSteps(quantity, step, minQ, eps) >= 0
  {
    assert quantity / step >= 0.0 && minQ / step >= 0.0;
  }

  lemma ParsedNonNegative(s: string)
    requires IsPlainDecimal(s)
    ensures ParseFloat(s) >= 0.0
  {
    ScaledSign(Units(s), |Fraction(s)|);
  }

  // ----- What the sizer returns, for all filters -----

  // Rounding to the lot: the step count, or the bound it misses.
  function LotOutcome(quantity: real, step: real, minQ: real, maxQ: real, eps: real): Result<int, SizingError>
    requires step > 0.0
  {
    var n := RoundedSteps(quantity, step, minQ, eps);
    if Quantity(n, step) > maxQ + eps then Err(AboveMaxQty)
    else if Quantity(n, step) < minQ - eps then Err(BelowMinQty)
    else Ok(n)
  }

  // The quantity whose notional is just enough.
  function NotionalQuantity(minNotional: real, price: real, tol: real): real
    requires price > 0.0
  {
    Quotient(minNotional - tol, price)
  }

  // From n steps, the fewest that meet the needed quantity, if they fit.
  function BumpOutcome(n: int, needed: real, step: real, maxQ: real, eps: real): Result<int, SizingError>
    requires step > 0.0
  {
    var k := MaxInt(n, StepsToReach(needed, step));
    if Quantity(k, step) > maxQ + eps then Err(MinNotionalUnreachable) else Ok(k)
  }

  function SizedSteps(quantity: real, price: real, step: real, minQ: real, maxQ: real, minNotional: real,
                      eps: real, tol: real): Result<int, SizingError>
    requires step > 0.0 && price > 0.0
  {
    match LotOutcome(quantity, step, minQ, maxQ, eps)
    case Err(e) => Err(e)
    case Ok(n) =>
      if minNotional <= 0.0 then Ok(n)
      else BumpOutcome(n, NotionalQuantity(minNotional, price, tol), step, maxQ, eps)
  }

  function Printed(r: Result<int, SizingError>, stepSize: string, step: real): Result<string, SizingError> {
    match r
    case Err(e) => Err(e)
    case Ok(n) => Ok(ToFixed(Quantity(n, step), CountDecimals(stepSize)))
  }

  function StepsFor(usd: real, refPrice: real, rules: Rules): Result<int, SizingError>
    requires WellFormed(rules)
  {
    if usd <= 0.0 then Err(UsdNotPositive)
    else if refPrice <= 0.0 then Err(PriceNotPositive)
    else if ParseFloat(rules.stepSize) <= 0.0 then Err(InvalidStep)
    else SizedSteps(Quotient(usd, refPrice), refPrice, ParseFloat(rules.stepSize), ParseFloat(rules.minQty),
                    ParseFloat(rules.maxQty), rules.minNotional, SLACK, NOTIONAL_SLACK)
  }

  // ----- The closed form on the grid -----

  // Enough steps for the budget, the minimum quantity and, when there is one, the
  // minimum notional.
  function TargetSteps(quantity: real, price: real, step: real, minQ: real, minNotional: real, eps: real,
                       tol: real): int
    requires step > 0.0 && price > 0.0
  {
    var lot := LotSteps(quantity, step, minQ, eps);
    if minNotional <= 0.0 then lot
    else MaxInt(lot, StepsToReach(NotionalQuantity(minNotional, price, tol), step))
  }

  // The maximum of budget and minimum quantity, if it fits.
  function LotOnGrid(quantity: real, step: real, minQ: real, maxQ: real, eps: real): Result<int, SizingError>
    requires step > 0.0
  {
    var n := LotSteps(quantity, step, minQ, eps);
    if Quantity(n, step) > maxQ then Err(AboveMaxQty) else Ok(n)
  }

  // On the grid the rounding never ends below the minimum.
  lemma LotClosedForm(quantity: real, step: real, minQ: real, maxQ: real, eps: real)
    requires step > 0.0 && Gridded(step, minQ, maxQ, eps)
    ensures LotOutcome(quantity, step, minQ, maxQ, eps) == LotOnGrid(quantity, step, minQ, maxQ, eps)
  {
    RoundedIsLotSteps(quantity, step, minQ, maxQ, eps);
    CountBounds(LotSteps(quantity, step, minQ, eps), step, minQ, maxQ, eps);
  }

  // The bounds on a count that reaches the minimum, for its quantity.
  lemma CountBounds(n: int, step: real, minQ: real, maxQ: real, eps: real)
    requires step > 0.0 && Gridded(step, minQ, maxQ, eps) && n >= StepsToReach(minQ, step)
    ensures Quantity(n, step) >= minQ && eps > 0.0
    ensures Quantity(n, step) > maxQ + eps <==> Quantity(n, step) > maxQ
  {
    var q := QuantityOf(n, step);
    LotBounds(n, q, step, minQ, maxQ, eps);
  }

  // The maximum of all three bounds, if it fits; else which bound did not.
  function SizedOnGrid(quantity: real, price: real, step: real, minQ: real, maxQ: real, minNotional: real,
                       eps: real, tol: real): Result<int, SizingError>
    requires step > 0.0 && price > 0.0
  {
    var n := TargetSteps(quantity, price, step, minQ, minNotional, eps, tol);
    if Quantity(n, step) <= maxQ then Ok(n)
    else if Quantity(LotSteps(quantity, step, minQ, eps), step) > maxQ then Err(AboveMaxQty)
    else Err(MinNotionalUnreachable)
  }

  // On the grid the count returned is exactly that maximum, and the call succeeds exactly
  // when it fits the maximum quantity.
  lemma SizedClosedForm(quantity: real, price: real, step: real, minQ: real, maxQ: real, minNotional: real, eps: real,
                        tol: real)
    requires step > 0.0 && price > 0.0 && Gridded(step, minQ, maxQ, eps)
    ensures SizedSteps(quantity, price, step, minQ, maxQ, minNotional, eps, tol) ==
            SizedOnGrid(quantity, price, step, minQ, maxQ, minNotional, eps, tol)
  {
    LotClosedForm(quantity, step, minQ, maxQ, eps);
    if minNotional > 0.0 {
      BumpClosedForm(LotSteps(quantity, step, minQ, eps), NotionalQuantity(minNotional, price, tol), step, minQ, maxQ,
                     eps);
    }
  }

  lemma BumpClosedForm(lot: int, needed: real, step: real, minQ: real, maxQ: real, eps: real)
    requires step > 0.0 && Gridded(step, minQ, maxQ, eps) && lot >= StepsToReach(minQ, step)
    ensures var n := MaxInt(lot, StepsToReach(needed, step));
            && BumpOutcome(lot, needed, step, maxQ, eps) ==
               (if Quantity(n, step) > maxQ then Err(MinNotionalUnreachable) else Ok(n))
            && Quantity(lot, step) <= Quantity(n, step)
  {
    var n := MaxInt(lot, StepsToReach(needed, step));
    CountBounds(n, step, minQ, maxQ, eps);
    MulMono(lot as real, n as real, step, Quantity(lot, step), Quantity(n, step));
  }

  // ----- What holds of every sized count -----

  // Every count handed out is a whole number of steps within the lot bounds, and meets
  // the minimum notional.
  lemma SizedFits(quantity: real, price: real, step: real, minQ: real, maxQ: real, minNotional: real, eps: real,
                  tol: real, n: int)
    requires step > 0.0 && price > 0.0 && quantity >= 0.0 && minQ >= 0.0 && 0.0 < eps < 1.0
    requires SizedSteps(quantity, price, step, minQ, maxQ, minNotional, eps, tol) == Ok(n)
    ensures n >= 0 && minQ - eps <= Quantity(n, step) <= maxQ + eps
    ensures minNotional > 0.0 ==> NotionalQuantity(minNotional, price, tol) <= Quantity(n, step)
  {
    var n0 := LotOutcome(quantity, step, minQ, maxQ, eps).value;
    RoundedNonNegative(quantity, step, minQ, eps);
    if minNotional > 0.0 {
      BumpFits(n0, NotionalQuantity(minNotional, price, tol), step, n);
    }
  }

  lemma BumpFits(n0: int, needed: real, step: real, n: int)
    requires step > 0.0 && n == MaxInt(n0, StepsToReach(needed, step))
    ensures Quantity(n0, step) <= Quantity(n, step) && needed <= Quantity(n, step)
  {
    MulMono(n0 as real, n as real, step, Quantity(n0, step), Quantity(n, step));
    StepsToReachIsLeast(needed, step, n, Quantity(n, step));
  }

  // The quantity of n steps, less the slack.
  function Covered(n: int, step: real, eps: real): real {
    (n as real - eps) * step
  }

  lemma CoveredIff(quantity: real, step: real, eps: real, k: int)
    requires step > 0.0
    ensures Covered(k, step, eps) <= quantity <==> k <= BudgetSteps(quantity, step, eps)
  {
    BudgetStepsIsGreatest(quantity, step, eps, k, Covered(k, step, eps));
  }

  // Rounding never leaves a whole step of the quantity unused, and exceeds the quantity
  // only when one step fewer would miss the minimum.
  lemma LotCoversQuantity(quantity: real, step: real, minQ: real, maxQ: real, eps: real, n: int)
    requires step > 0.0 && eps > 0.0 && LotOutcome(quantity, step, minQ, maxQ, eps) == Ok(n)
    ensures quantity < Covered(n + 1, step, eps)
    ensures Covered(n, step, eps) <= quantity || Quantity(n - 1, step) < minQ
  {
    var f := BudgetSteps(quantity, step, eps);
    CoveredIff(quantity, step, eps, n + 1);
    CoveredIff(quantity, step, eps, n);
    if n != f {
      LiftIsLeast(f, n, step, minQ, eps);
    }
  }

  // The lift reaches further than the floor, and stops at the minimum.
  lemma LiftIsLeast(f: int, n: int, step: real, minQ: real, eps: real)
    requires step > 0.0 && eps > 0.0 && n == Ceil(minQ / step - eps) && Quantity(f, step) < minQ - eps
    requires minQ - eps <= Quantity(n, step)
    ensures f < n && Quantity(n - 1, step) < minQ
  {
    if n <= f {
      MulMono(n as real, f as real, step, Quantity(n, step), Quantity(f, step));
    }
    StepsToReachIsLeast(minQ, step, n - 1, Quantity(n - 1, step));
    CeilIsLeast(minQ / step, n - 1);
    CeilIsLeast(minQ / step - eps, n - 1);
  }

  // The same of the whole sizing, with the minimum notional as a second reason to exceed
  // the budget.
  lemma SizedCoversQuantity(quantity: real, price: real, step: real, minQ: real, maxQ: real, minNotional: real,
                            eps: real, tol: real, n: int)
    requires step > 0.0 && price > 0.0 && eps > 0.0
    requires SizedSteps(quantity, price, step, minQ, maxQ, minNotional, eps, tol) == Ok(n)
    ensures quantity < Covered(n + 1, step, eps)
    ensures || Covered(n, step, eps) <= quantity || Quantity(n - 1, step) < minQ
            || (minNotional > 0.0 && Quantity(n - 1, step) < NotionalQuantity(minNotional, price, tol))
  {
    var n0 := LotOutcome(quantity, step, minQ, maxQ, eps).value;
    LotCoversQuantity(quantity, step, minQ, maxQ, eps, n0);
    MulMono((n0 + 1) as real - eps, (n + 1) as real - eps, step, Covered(n0 + 1, step, eps), Covered(n + 1, step, eps));
    if n != n0 {
      StepsToReachIsLeast(NotionalQuantity(minNotional, price, tol), step, n - 1, Quantity(n - 1, step));
    }
  }

  // A zero count is handed out exactly when the budget does not cover a step and neither
  // minimum asks for one.
  lemma SizedZeroIff(quantity: real, price: real, step: real, minQ: real, maxQ: real, minNotional: real, eps: real,
                     tol: real)
    requires step > 0.0 && price > 0.0 && quantity > 0.0 && minQ >= 0.0 && maxQ >= 0.0 && 0.0 < eps < 1.0 && tol >= 0.0
    ensures SizedSteps(quantity, price, step, minQ, maxQ, minNotional, eps, tol) == Ok(0) <==>
            Quotient(quantity, step) + eps < 1.0 && minQ <= eps && minNotional <= tol
  {
    LotZeroIff(quantity, step, minQ, maxQ, eps);
    RoundedNonNegative(quantity, step, minQ, eps);
    NeedsNoStepIff(minNotional, price, step, tol);
  }

  lemma LotZeroIff(quantity: real, step: real, minQ: real, maxQ: real, eps: real)
    requires step > 0.0 && quantity > 0.0 && minQ >= 0.0 && maxQ >= 0.0 && 0.0 < eps < 1.0
    ensures LotOutcome(quantity, step, minQ, maxQ, eps) == Ok(0) <==>
            Quotient(quantity, step) + eps < 1.0 && minQ <= eps
  {
    QuotientPositive(quantity, step);
    var f := BudgetSteps(quantity, step, eps);
    assert f == 0 <==> Quotient(quantity, step) + eps < 1.0;
    ZeroSteps(step);
    if f > 0 {
      MulMonoStrict(0.0, f as real, step, 0.0, Quantity(f, step));
    }
  }

  lemma ZeroSteps(step: real)
    ensures Quantity(0, step) == 0.0
  {
  }

  lemma NeedsNoStepIff(minNotional: real, price: real, step: real, tol: real)
    requires step > 0.0 && price > 0.0
    ensures StepsToReach(NotionalQuantity(minNotional, price, tol), step) <= 0 <==> minNotional <= tol
  {
    ZeroSteps(step);
    StepsToReachIsLeast(NotionalQuantity(minNotional, price, tol), step, 0, Quantity(0, step));
    DivCompare(minNotional - tol, price, 0.0, 0.0 * price);
  }

  lemma QuotientPositive(a: real, b: real)
    requires a > 0.0 && b > 0.0
    ensures a / b > 0.0
  {
  }

  // ----- The sizer -----

  // Floor to the step, lift to the minimum, refuse outside the bounds.
  method RoundToLot(quantity: real, step: real, minQ: real, maxQ: real, eps: real)
      returns (r: Result<real, SizingError>, ghost n: Result<int, SizingError>)
    requires step > 0.0
    ensures n == LotOutcome(quantity, step, minQ, maxQ, eps)
    ensures r == match n case Ok(k) => Ok(Quantity(k, step)) case Err(e) => Err(e)
  {
    var steps := (quantity / step + eps).Floor;
    var q := Quantity(steps, step);
    if q < minQ - eps {
      steps := Ceil(minQ / step - eps);
      q := Quantity(steps, step);
    }
    n := LotOutcome(quantity, step, minQ, maxQ, eps);
    if q > maxQ + eps {
      return Err(AboveMaxQty), n;
    }
    if q < minQ - eps {
      return Err(BelowMinQty), n;
    }
    return Ok(q), n;
  }

  // A quantity string the sizer may hand out: a whole number of steps within the
  // lot bounds, printed at the digits of the step size.
  ghost predicate FitsLot(s: string, n: int, q: real, rules: Rules)
    requires WellFormed(rules)
  {
    && Product(n as real, ParseFloat(rules.stepSize), q)
    && s == ToFixed(q, CountDecimals(rules.stepSize))
    && ParseFloat(rules.minQty) - SLACK <= q <= ParseFloat(rules.maxQty) + SLACK
  }

  // The rounding under these filters.
  function LotStepsFor(quantity: real, rules: Rules): Result<int, SizingError>
    requires WellFormed(rules)
  {
    if ParseFloat(rules.stepSize) <= 0.0 then Err(InvalidStep)
    else LotOutcome(quantity, ParseFloat(rules.stepSize), ParseFloat(rules.minQty), ParseFloat(rules.maxQty), SLACK)
  }

  // The same, in closed form.
  function LotGridFor(quantity: real, rules: Rules): Result<int, SizingError>
    requires WellFormed(rules) && ParseFloat(rules.stepSize) > 0.0
  {
    LotOnGrid(quantity, ParseFloat(rules.stepSize), ParseFloat(rules.minQty), ParseFloat(rules.maxQty), SLACK)
  }

  // The filters are on a grid, as the exchange's are.
  ghost predicate GridRules(rules: Rules)
    requires WellFormed(rules)
  {
    && ParseFloat(rules.stepSize) > 0.0
    && Gridded(ParseFloat(rules.stepSize), ParseFloat(rules.minQty), ParseFloat(rules.maxQty), SLACK)
  }

  method AdjustQuantityToLotSize(quantity: real, rules: Rules) returns (r: Result<string, SizingError>)
    requires WellFormed(rules)
    ensures r == Printed(LotStepsFor(quantity, rules), rules.stepSize, ParseFloat(rules.stepSize))
    ensures GridRules(rules) ==> r == Printed(LotGridFor(quantity, rules), rules.stepSize, ParseFloat(rules.stepSize))
  {
    var step, minQ, maxQ := ParseFloat(rules.stepSize), ParseFloat(rules.minQty), ParseFloat(rules.maxQty);
    if step <= 0.0 {
      return Err(InvalidStep);
    }
    var decimals := CountDecimals(rules.stepSize);
    if GridRules(rules) {
      LotClosedForm(quantity, step, minQ, maxQ, SLACK);
    }
    var rounded;
    ghost var n;
    rounded, n := RoundToLot(quantity, step, minQ, maxQ, SLACK);
    match rounded
    case Err(e) => return Err(e);
    case Ok(q) => return Ok(ToFixed(q, decimals));
  }

  function NotionalForQuantity(s: string, price: real): real
    requires IsPlainDecimal(s)
  {
    ParseFloat(s) * price
  }

  lemma NotionalOf(s: string, q: real, price: real)
    requires IsPlainDecimal(s) && ParseFloat(s) == q
    ensures Product(q, price, NotionalForQuantity(s, price))
  {
  }

  // Pricing the printed string is pricing the multiple: printing loses nothing.
  lemma PrintedPrice(s: string, q: real, k: nat, price: real, stepSize: string, step: real)
    requires IsPlainDecimal(stepSize) && step == ParseFloat(stepSize) && Product(k as real, step, q)
    requires s == ToFixed(q, CountDecimals(stepSize))
    ensures IsPlainDecimal(s) && ParseFloat(s) == q && Product(q, price, NotionalForQuantity(s, price))
  {
    QuantityRoundTrip(q, k, stepSize, step);
    NotionalOf(s, q, price);
  }

  lemma QuantityOf(n: int, step: real) returns (q: real)
    ensures q == Quantity(n, step) && Product(n as real, step, q)
  {
    q := Quantity(n, step);
  }

  // Read a printed quantity back, and price it.
  method ReadAndPrice(s: string, ghost k: nat, ghost multiple: real, price: real, stepSize: string, ghost step: real)
      returns (q: real, notional: real)
    requires IsPlainDecimal(stepSize) && step == ParseFloat(stepSize) && Product(k as real, step, multiple)
    requires s == ToFixed(multiple, CountDecimals(stepSize))
    ensures q == multiple && Product(q, price, notional)
  {
    PrintedPrice(s, multiple, k, price, stepSize, step);
    q, notional := ParseFloat(s), NotionalForQuantity(s, price);
  }

  method PrintAndPrice(q: real, ghost k: nat, price: real, stepSize: string, ghost step: real)
      returns (s: string, notional: real)
    requires IsPlainDecimal(stepSize) && step == ParseFloat(stepSize) && Product(k as real, step, q)
    ensures s == ToFixed(q, CountDecimals(stepSize))
    ensures Product(q, price, notional)
  {
    s := ToFixed(q, CountDecimals(stepSize));
    PrintedPrice(s, q, k, price, stepSize, step);
    notional := NotionalForQuantity(s, price);
  }

  // Add steps to a printed quantity until its notional is met or the maximum is passed.
  method BumpToNotional(start: string, ghost n: nat, price: real, need: real, stepSize: string, step: real, maxQ: real,
                        eps: real)
      returns (r: Result<string, SizingError>)
    requires IsPlainDecimal(stepSize) && step == ParseFloat(stepSize) && step > 0.0 && price > 0.0
    requires start == ToFixed(Quantity(n, step), CountDecimals(stepSize)) && Quantity(n, step) <= maxQ + eps
    ensures r == Printed(BumpOutcome(n, Quotient(need, price), step, maxQ, eps), stepSize, step)
  {
    ghost var k: nat, target := n, MaxInt(n, StepsToReach(Quotient(need, price), step));
    ghost var last := QuantityOf(target, step);
    ghost var first := QuantityOf(n, step);
    var qStr := start;
    var q, notional := ReadAndPrice(start, n, first, price, stepSize, step);
    while notional < need
      invariant n <= k <= target && Product(k as real, step, q) && q <= maxQ + eps
      invariant qStr == ToFixed(q, CountDecimals(stepSize)) && Product(q, price, notional)
      decreases target - k
    {
      StepsShort(q, k, price, need, step, notional);
      OneMoreStep(q, k, k + 1, step, target, last);
      k := k + 1;
      q := q + step;
      if q > maxQ + eps {
        return Err(MinNotionalUnreachable);
      }
      qStr, notional := PrintAndPrice(q, k, price, stepSize, step);
    }
    StepsShort(q, k, price, need, step, notional);
    assert k == target;
    SameProduct(k as real, target as real, step, q, last);
    return Ok(qStr);
  }

  lemma SameProduct(a: real, b: real, c: real, ac: real, bc: real)
    requires a == b && Product(a, c, ac) && Product(b, c, bc)
    ensures ac == bc
  {
  }

  lemma OneMoreStep(q: real, k: nat, k': nat, step: real, n: int, target: real)
    requires step > 0.0 && Product(k as real, step, q) && Product(n as real, step, target) && k' == k + 1 <= n
    ensures Product(k' as real, step, q + step)
    ensures q + step <= target
  {
    MulMono(k' as real, n as real, step, q + step, target);
  }

  // The notional falls short exactly while steps are missing.
  lemma StepsShort(q: real, k: nat, price: real, need: real, step: real, notional: real)
    requires step > 0.0 && price > 0.0 && Product(k as real, step, q) && Product(q, price, notional)
    ensures notional < need <==> k < StepsToReach(Quotient(need, price), step)
  {
    DivCompare(need, price, q, notional);
    StepsToReachIsLeast(Quotient(need, price), step, k, q);
  }

  lemma LotOutcomeFits(quantity: real, step: real, minQ: real, maxQ: real, eps: real)
    requires step > 0.0 && minQ >= 0.0 && quantity >= 0.0 && 0.0 < eps < 1.0
    ensures LotOutcome(quantity, step, minQ, maxQ, eps).Ok? ==>
              var n := LotOutcome(quantity, step, minQ, maxQ, eps).value;
              n >= 0 && Quantity(n, step) <= maxQ + eps
  {
    RoundedNonNegative(quantity, step, minQ, eps);
  }

  function StepsOnGrid(usd: real, refPrice: real, rules: Rules): Result<int, SizingError>
    requires WellFormed(rules) && refPrice > 0.0 && ParseFloat(rules.stepSize) > 0.0
  {
    SizedOnGrid(Quotient(usd, refPrice), refPrice, ParseFloat(rules.stepSize), ParseFloat(rules.minQty),
                ParseFloat(rules.maxQty), rules.minNotional, SLACK, NOTIONAL_SLACK)
  }

  lemma SizerOnGrid(usd: real, refPrice: real, rules: Rules)
    requires WellFormed(rules) && usd > 0.0 && refPrice > 0.0 && GridRules(rules)
    ensures StepsFor(usd, refPrice, rules) == StepsOnGrid(usd, refPrice, rules)
  {
    SizedClosedForm(Quotient(usd, refPrice), refPrice, ParseFloat(rules.stepSize), ParseFloat(rules.minQty),
                    ParseFloat(rules.maxQty), rules.minNotional, SLACK, NOTIONAL_SLACK);
  }

  // The whole sizer: which error, or which multiple as which string, for every input; on
  // the grid, the closed form.
  method UsdNotionalToBaseQuantity(usd: real, refPrice: real, rules: Rules) returns (r: Result<string, SizingError>)
    requires WellFormed(rules)
    ensures r == Printed(StepsFor(usd, refPrice, rules), rules.stepSize, ParseFloat(rules.stepSize))
    ensures usd > 0.0 && refPrice > 0.0 && GridRules(rules) ==>
              r == Printed(StepsOnGrid(usd, refPrice, rules), rules.stepSize, ParseFloat(rules.stepSize))
  {
    if usd > 0.0 && refPrice > 0.0 && GridRules(rules) {
      SizerOnGrid(usd, refPrice, rules);
    }
    if usd <= 0.0 {
      return Err(UsdNotPositive);
    }
    if refPrice <= 0.0 {
      return Err(PriceNotPositive);
    }
    var rawQty := usd / refPrice;
    r := AdjustQuantityToLotSize(rawQty, rules);
    if r.Err? || rules.minNotional <= 0.0 {
      return;
    }
    r := MeetNotional(r.value, usd, refPrice, rules);
  }

  // The second half: raise a rounded quantity to the minimum notional.
  method MeetNotional(start: string, ghost usd: real, refPrice: real, rules: Rules)
      returns (r: Result<string, SizingError>)
    requires WellFormed(rules) && usd > 0.0 && refPrice > 0.0 && rules.minNotional > 0.0
    requires Ok(start) ==
             Printed(LotStepsFor(Quotient(usd, refPrice), rules), rules.stepSize, ParseFloat(rules.stepSize))
    ensures r == Printed(StepsFor(usd, refPrice, rules), rules.stepSize, ParseFloat(rules.stepSize))
  {
    var step, maxQ := ParseFloat(rules.stepSize), ParseFloat(rules.maxQty);
    ghost var minQ, rawQty := ParseFloat(rules.minQty), Quotient(usd, refPrice);
    QuotientPositive(usd, refPrice);
    ParsedNonNegative(rules.minQty);
    LotOutcomeFits(rawQty, step, minQ, maxQ, SLACK);
    ghost var n := LotOutcome(rawQty, step, minQ, maxQ, SLACK).value;
    r := BumpToNotional(start, n, refPrice, rules.minNotional - NOTIONAL_SLACK, rules.stepSize, step, maxQ, SLACK);
  }

  // What the sizer hands out fits the lot and meets the notional, whatever the filters.
  lemma SizerFits(usd: real, refPrice: real, rules: Rules, n: int)
    requires WellFormed(rules) && StepsFor(usd, refPrice, rules) == Ok(n)
    ensures var step := ParseFloat(rules.stepSize);
            && n >= 0 && step > 0.0 && refPrice > 0.0
            && FitsLot(ToFixed(Quantity(n, step), CountDecimals(rules.stepSize)), n, Quantity(n, step), rules)
            && (rules.minNotional > 0.0 ==>
                  NotionalQuantity(rules.minNotional, refPrice, NOTIONAL_SLACK) <= Quantity(n, step))
  {
    QuotientPositive(usd, refPrice);
    ParsedNonNegative(rules.minQty);
    SizedFits(Quotient(usd, refPrice), refPrice, ParseFloat(rules.stepSize), ParseFloat(rules.minQty),
              ParseFloat(rules.maxQty), rules.minNotional, SLACK, NOTIONAL_SLACK, n);
  }

  // What n steps cost.
  function CostOfSteps(n: int, step: real, price: real): real {
    Quantity(n, step) * price
  }

  // What the slack of a step costs.
  function SlackCost(step: real, price: real, eps: real): real {
    eps * step * price
  }

  lemma CoveredCost(n: int, step: real, price: real, eps: real, usd: real)
    requires price > 0.0
    ensures Covered(n, step, eps) <= Quotient(usd, price) <==>
            CostOfSteps(n, step, price) <= usd + SlackCost(step, price, eps)
  {
    var cost := Covered(n, step, eps) * price;
    assert cost == CostOfSteps(n, step, price) - SlackCost(step, price, eps);
    DivCompare(usd, price, Covered(n, step, eps), cost);
  }

  // n steps spend the budget: one more would exceed it, and it is exceeded only when one
  // step fewer would miss a minimum.
  ghost predicate SpendsBudget(n: int, usd: real, price: real, step: real, minQ: real, minNotional: real, eps: real,
                               tol: real)
    requires price > 0.0
  {
    && usd + SlackCost(step, price, eps) < CostOfSteps(n + 1, step, price)
    && (|| CostOfSteps(n, step, price) <= usd + SlackCost(step, price, eps)
        || Quantity(n - 1, step) < minQ
        || (minNotional > 0.0 && Quantity(n - 1, step) < NotionalQuantity(minNotional, price, tol)))
  }

  lemma SizedSpendsBudget(usd: real, price: real, step: real, minQ: real, maxQ: real, minNotional: real, eps: real,
                          tol: real, n: int)
    requires step > 0.0 && price > 0.0 && eps > 0.0
    requires SizedSteps(Quotient(usd, price), price, step, minQ, maxQ, minNotional, eps, tol) == Ok(n)
    ensures SpendsBudget(n, usd, price, step, minQ, minNotional, eps, tol)
  {
    SizedCoversQuantity(Quotient(usd, price), price, step, minQ, maxQ, minNotional, eps, tol, n);
    CoveredCost(n, step, price, eps, usd);
    CoveredCost(n + 1, step, price, eps, usd);
  }

  // Every order the sizer makes spends its budget so, to within 1e-12 of a step.
  lemma SizerSpendsBudget(usd: real, refPrice: real, rules: Rules, n: int)
    requires WellFormed(rules) && StepsFor(usd, refPrice, rules) == Ok(n)
    ensures refPrice > 0.0
    ensures SpendsBudget(n, usd, refPrice, ParseFloat(rules.stepSize), ParseFloat(rules.minQty), rules.minNotional,
                         SLACK, NOTIONAL_SLACK)
  {
    SizedSpendsBudget(usd, refPrice, ParseFloat(rules.stepSize), ParseFloat(rules.minQty), ParseFloat(rules.maxQty),
                      rules.minNotional, SLACK, NOTIONAL_SLACK, n);
  }

  // It hands out zero exactly on these inputs.
  lemma SizerZeroIff(usd: real, refPrice: real, rules: Rules)
    requires WellFormed(rules) && usd > 0.0 && refPrice > 0.0 && ParseFloat(rules.stepSize) > 0.0
    ensures StepsFor(usd, refPrice, rules) == Ok(0) <==>
            && Quotient(Quotient(usd, refPrice), ParseFloat(rules.stepSize)) + SLACK < 1.0
            && ParseFloat(rules.minQty) <= SLACK && rules.minNotional <= NOTIONAL_SLACK
  {
    QuotientPositive(usd, refPrice);
    ParsedNonNegative(rules.minQty);
    ParsedNonNegative(rules.maxQty);
    SizedZeroIff(Quotient(usd, refPrice), refPrice, ParseFloat(rules.stepSize), ParseFloat(rules.minQty),
                 ParseFloat(rules.maxQty), rules.minNotional, SLACK, NOTIONAL_SLACK);
  }
}
