// Shared vocabulary: the absent value (null, undefined, NaN), thrown errors, and
// the handful of Math functions the trading code uses, over exact reals.
module Common {

  datatype Option<+T> = None | Some(value: T)

  datatype Result<+T, +E> = Ok(value: T) | Err(error: E)

  function Max(a: real, b: real): real {
    if a >= b then a else b
  }

  function Min(a: real, b: real): real {
    if a <= b then a else b
  }

  function Abs(a: real): real {
    if a >= 0.0 then a else -a
  }

  function MaxInt(a: int, b: int): int {
    if a >= b then a else b
  }

  // Math.round: ties go up.
  function Round(x: real): int {
    (x + 0.5).Floor
  }

  // The nearest integer, the upper one on a tie.
  lemma RoundIsNearest(x: real)
    ensures Round(x) as real - 0.5 <= x < Round(x) as real + 0.5
  {
  }

  // Math.ceil
  function Ceil(x: real): int {
    -((-x).Floor)
  }

  function Clamp01(x: real): real {
    Max(0.0, Min(1.0, x))
  }

  function Clamp(x: real, lo: real, hi: real): real {
    Max(lo, Min(hi, x))
  }

  // String.prototype.trim, on the white space of the basic plane.
  predicate IsSpace(c: char) {
    || c == ' ' || '\t' <= c <= '\r' || c == '\U{00A0}' || c == '\U{1680}' || '\U{2000}' <= c <= '\U{200A}'
    || c == '\U{2028}' || c == '\U{2029}' || c == '\U{202F}' || c == '\U{205F}' || c == '\U{3000}' || c == '\U{FEFF}'
  }

  function Trim(s: string): string {
    if s == "" then s
    else if IsSpace(s[0]) then Trim(s[1..])
    else if IsSpace(s[|s| - 1]) then Trim(s[..|s| - 1])
    else s
  }

  lemma MulCancel(a: real, b: real)
    requires b != 0.0
    ensures a * b / b == a
  {
  }

  lemma MulAsReal(a: int, b: int)
    ensures (a * b) as real == a as real * b as real
  {
  }

  // A product keeps the order of its left factor. The products are parameters, so
  // that callers compare them as named quantities.
  lemma MulMono(a: real, b: real, c: real, ac: real, bc: real)
    requires a <= b && c >= 0.0 && ac == a * c && bc == b * c
    ensures ac <= bc
  {
  }

  lemma MulMonoStrict(a: real, b: real, c: real, ac: real, bc: real)
    requires a < b && c > 0.0 && ac == a * c && bc == b * c
    ensures ac < bc
  {
  }

  // ab is the product of a and b. Naming a product lets proofs pass it along whole.
  predicate Product(a: real, b: real, ab: real) {
    ab == a * b
  }

  function Quotient(a: real, b: real): real
    requires b != 0.0
  {
    a / b
  }

  // Order against a quotient is order against the product.
  lemma DivCompare(a: real, b: real, x: real, xb: real)
    requires b > 0.0 && xb == x * b
    ensures xb >= a <==> x >= a / b
    ensures xb > a <==> x > a / b
  {
    var q := a / b;
    var qb := q * b;
    assert qb == a;
    if x > q {
      MulMonoStrict(q, x, b, qb, xb);
    } else if x < q {
      MulMonoStrict(x, q, b, xb, qb);
    }
  }

  // Both sides of a quotient may be scaled by a common factor.
  lemma DivCommonFactor(a: real, b: real, c: real)
    requires b != 0.0 && c != 0.0
    ensures c * b != 0.0 && (c * a) / (c * b) == a / b
  {
    var q := a / b;
    assert q * b == a;
    assert c * a == q * (c * b);
    MulCancel(q, c * b);
  }
}
