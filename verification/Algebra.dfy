/**
  Products of reals. A proof that only moves products around hides `Times` and uses the
  laws below; the solver then has no nonlinear terms to work on.
 */
module Algebra {

  function Times(x: real, y: real): real {
    x * y
  }

  function Power(x: real, n: nat): real {
    if n == 0 then 1.0 else Times(x, Power(x, n - 1))
  }

  lemma Distributes(x: real, y: real, z: real)
    ensures Times(x + y, z) == Times(x, z) + Times(y, z)
    ensures Times(x - y, z) == Times(x, z) - Times(y, z)
    ensures Times(z, x + y) == Times(z, x) + Times(z, y)
    ensures Times(z, x - y) == Times(z, x) - Times(z, y)
  {
  }

  lemma Unit(x: real)
    ensures Times(1.0, x) == x && Times(-1.0, x) == -x && Times(0.0, x) == 0.0
  {
  }

  lemma SquareIsPositive(x: real)
    ensures Times(x, x) >= 0.0
    ensures x != 0.0 <==> Times(x, x) > 0.0
  {
    hide Times;
    Unit(x);
    if x > 0.0 {
      ProductIsPositive(x, x);
    } else if x < 0.0 {
      ProductIsPositive(-x, -x);
      Negated(x, -x);
      Negated(x, x);
    }
  }

  lemma ProductIsPositive(x: real, y: real)
    ensures x >= 0.0 && y >= 0.0 ==> Times(x, y) >= 0.0
    ensures x > 0.0 && y > 0.0 ==> Times(x, y) > 0.0
  {
  }

  lemma Negated(x: real, y: real)
    ensures Times(-x, y) == -Times(x, y) && Times(x, -y) == -Times(x, y)
  {
  }

  lemma ProductOfNegatives(x: real, y: real)
    requires x <= 0.0 && y <= 0.0
    ensures Times(x, y) >= 0.0
  {
    hide Times;
    ProductIsPositive(-x, -y);
    Negated(x, -y);
    Negated(x, y);
  }

  lemma ProductIsNegative(x: real, y: real)
    requires x > 0.0 && y < 0.0
    ensures Times(x, y) < 0.0
  {
    hide Times;
    ProductIsPositive(x, -y);
    Negated(x, y);
  }

  lemma QuotientTimes(x: real, d: real)
    requires d != 0.0
    ensures Times(x / d, d) == x && Times(d, x / d) == x
  {
  }

  /** A positive factor can be cancelled. */
  lemma Cancel(x: real, y: real, factor: real)
    requires factor > 0.0 && Times(x, factor) <= Times(y, factor)
    ensures x <= y
  {
    hide Times;
    Distributes(x, y, factor);
    ProductIsPositive(x - y, factor);
  }

  lemma Scale(x: real, y: real, factor: real)
    requires factor >= 0.0 && x <= y
    ensures Times(x, factor) <= Times(y, factor)
  {
    hide Times;
    Distributes(y, x, factor);
    ProductIsPositive(y - x, factor);
  }

  lemma ScaleRight(x: real, y: real, factor: real)
    requires x <= y && factor >= 0.0
    ensures Times(factor, x) <= Times(factor, y)
  {
    hide Times;
    Distributes(y, x, factor);
    ProductIsPositive(factor, y - x);
  }

  lemma Swap(x: real, y: real)
    ensures Times(x, y) == Times(y, x)
  {
  }
}
