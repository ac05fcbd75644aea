/** Facts about multiplying and comparing real numbers that the solver does
    not find on its own once the factors are symbolic. */
module RealArith {

  /** Multiplying by a positive number keeps a strict order. */
  lemma ProductGrows(x: real, y: real, k: real)
    requires x < y && k > 0.0
    ensures x * k < y * k
  {
  }

  /** Multiplying by a positive number keeps a non-strict order. */
  lemma ProductAtLeast(x: real, y: real, k: real)
    requires x <= y && k > 0.0
    ensures x * k <= y * k
  {
  }

  /** Dividing by a positive number keeps a strict order. */
  lemma ProductShrinks(x: real, y: real, k: real)
    requires x * k < y * k && k > 0.0
    ensures x < y
  {
    if y <= x {
      ProductAtLeast(y, x, k);
    }
  }

  /** `x · y`, kept as a function of its own so that the solver treats a
      square as a term. */
  function Product(x: real, y: real): real {
    x * y
  }

  lemma ProductPositive(x: real, y: real)
    requires x > 0.0 && y > 0.0
    ensures Product(x, y) > 0.0
  {
  }

  /** The shape `2 · a · b · (c · d) · e` of the KV-cache formula is positive
      when every factor is. */
  lemma DoubledProductPositive(a: real, b: real, c: real, d: real, e: real)
    requires a > 0.0 && b > 0.0 && c > 0.0 && d > 0.0 && e > 0.0
    ensures 2.0 * a * b * (c * d) * e > 0.0
  {
    assert a * b > 0.0;
    assert c * d > 0.0;
    assert a * b * (c * d) > 0.0;
    assert a * b * (c * d) * e > 0.0;
  }

  lemma QuotientTimesDivisor(x: real, d: real)
    requires d != 0.0
    ensures x / d * d == x
  {
  }

  lemma IntAtMost(a: int, b: int)
    requires a <= b
    ensures a as real <= b as real
  {
  }
}
