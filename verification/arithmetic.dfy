/** Products and quotients of reals, one step at a time. */
module Arithmetic {
  /** A product under a name, so that equal factors give equal products. */
  function Times(x: real, y: real): real { x * y }

  lemma ProductIsPositive(x: real, y: real)
    requires x > 0.0 && y > 0.0
    ensures x * y > 0.0 && Times(x, y) > 0.0
  {
  }

  lemma ProductIsNonNegative(x: real, y: real)
    requires 0.0 <= x && 0.0 <= y
    ensures 0.0 <= x * y
  {
  }

  /** A factor has the sign of its product with a positive number. */
  lemma Quotient(x: real, p: real)
    requires p > 0.0
    ensures x * p >= 0.0 ==> x >= 0.0
    ensures x * p > 0.0 ==> x > 0.0
  {
    assert x == x * p / p;
  }

  lemma Cancels(x: real, p: real)
    requires p != 0.0
    ensures x * p / p == x
  {
  }

  lemma Regroup(x: real, y: real, u: real)
    ensures x * u * (y * u) == x * y * (u * u)
  {
  }
}
