/** Laws of multiplication and division that the solver should not have to find among other facts. */
module Arithmetic {

  lemma PositiveProduct(a: real, b: real)
    requires a > 0.0 && b > 0.0
    ensures a * b > 0.0
  {
  }

  lemma ProductNotNegative(a: real, b: real)
    requires a >= 0.0 && b >= 0.0
    ensures a * b >= 0.0
  {
  }

  lemma FactorNotNegative(a: real, b: real)
    requires b > 0.0 && a * b >= 0.0
    ensures a >= 0.0
  {
  }

  /** Cancelling a positive factor. */
  lemma AtMost(a: real, b: real, c: real)
    requires c > 0.0 && a * c <= b * c
    ensures a <= b
  {
    FactorNotNegative(b - a, c);
  }

  lemma Scale(a: real, b: real, c: real)
    requires a >= 0.0 && b <= c
    ensures a * b <= a * c && b * a <= c * a
  {
  }

  lemma Distribute(a: real, b: real, c: real)
    ensures a * (b + c) == a * b + a * c
  {
  }

  lemma QuotientOrder(a: real, b: real, c: real)
    requires a <= b * c && c > 0.0
    ensures a / c <= b
  {
    Distribute(c, b, -(a / c));
    FactorNotNegative(b - a / c, c);
  }

  lemma Cancel(a: real, b: real, c: real)
    requires c != 0.0 && a * c == b * c
    ensures a == b
  {
    assert (a - b) * c == 0.0;
  }
}
