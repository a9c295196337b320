/** The few facts about division over the reals that the money proofs need. */
module Reals {

  lemma DivNonNegative(a: real, b: real)
    requires a >= 0.0 && b > 0.0
    ensures a / b >= 0.0
  {
  }

  lemma DivPositive(a: real, b: real)
    requires a > 0.0 && b > 0.0
    ensures a / b > 0.0
  {
  }

  lemma MulPositive(a: real, b: real)
    requires a > 0.0 && b > 0.0
    ensures a * b > 0.0
  {
  }

  lemma DivCancel(a: real, b: real)
    requires b != 0.0
    ensures a / b * b == a
  {
  }

  /** `x` is the quotient as soon as it multiplies back. */
  lemma DivUnique(a: real, b: real, x: real)
    requires b != 0.0 && x * b == a
    ensures a / b == x
  {
    DivCancel(a, b);
    assert (a / b - x) * b == 0.0;
  }

  lemma DivAdd(a: real, b: real, c: real)
    requires c != 0.0
    ensures (a + b) / c == a / c + b / c
  {
    DivCancel(a, c);
    DivCancel(b, c);
    assert (a / c + b / c) * c == a + b;
    DivUnique(a + b, c, a / c + b / c);
  }

  /** Dividing by a product is dividing twice. */
  lemma DivMul(a: real, b: real, c: real)
    requires b != 0.0 && c != 0.0
    ensures b * c != 0.0
    ensures a / (b * c) == a / b / c
  {
    DivCancel(a, b);
    DivCancel(a / b, c);
    assert a / b / c * (b * c) == a / b / c * c * b;
    DivUnique(a, b * c, a / b / c);
  }

  lemma DivScale(a: real, b: real, c: real)
    requires c != 0.0
    ensures a * b / c == a / c * b
  {
    DivCancel(a, c);
    assert a / c * b * c == a / c * c * b;
    DivUnique(a * b, c, a / c * b);
  }

  lemma DivMono(a: real, b: real, c: real)
    requires a <= b && c > 0.0
    ensures a / c <= b / c
  {
    DivAdd(a, b - a, c);
    DivNonNegative(b - a, c);
  }

  lemma MulMono(a: real, b: real, c: real)
    requires a <= b && c >= 0.0
    ensures a * c <= b * c
  {
    assert (b - a) * c >= 0.0;
  }

  lemma MulNegates(a: real, b: real)
    ensures a * -b == -(a * b) && -a * b == -(a * b)
  {
  }

  lemma MulAssociates(a: real, b: real, c: real)
    ensures a * b * c == a * (b * c)
  {
  }

  /** Two rounded numbers add up to within the sum of their errors. */
  lemma ErrorsAdd(a: int, x: real, b: int, y: real, n: real)
    requires -0.5 <= a as real - x <= 0.5
    requires -0.5 * n <= b as real - y <= 0.5 * n
    ensures -0.5 * (n + 1.0) <= (a + b) as real - (x + y) <= 0.5 * (n + 1.0)
  {
  }

  lemma MulDistributes(a: real, b: real, c: real)
    ensures (a + b) * c == a * c + b * c
  {
  }

  lemma QuotientOfQuotient(a: real, b: real)
    requires a > 0.0 && b > 0.0
    ensures a / b > 0.0 && a / (a / b) == b
  {
    DivPositive(a, b);
    DivCancel(a, b);
    DivUnique(a, a / b, b);
  }

  lemma QuotientBetween(a: real, b: real, low: real, high: real)
    requires b > 0.0 && b * low <= a <= b * high
    ensures low <= a / b <= high
  {
    DivMono(b * low, a, b);
    DivMono(a, b * high, b);
    DivUnique(b * low, b, low);
    DivUnique(b * high, b, high);
  }
}
