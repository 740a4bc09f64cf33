/**
 * Small facts about real multiplication and division, each stated on two
 * distinct factors so that the solver proves it in isolation; the rate laws
 * and the frequency estimate are built on them.
 */
module Reals {

  lemma PosTimesPos(a: real, b: real)
    requires a > 0.0 && b > 0.0
    ensures a * b > 0.0
  {
  }

  lemma NonnegTimesNonneg(a: real, b: real)
    requires a >= 0.0 && b >= 0.0
    ensures a * b >= 0.0
  {
  }

  lemma ProductFacts(a: real, b: real)
    ensures a > 0.0 && b > 0.0 ==> a * b > 0.0
    ensures a >= 0.0 && b >= 0.0 ==> a * b >= 0.0
    ensures 0.0 <= a <= 1.0 && b >= 0.0 ==> a * b <= b
    ensures 0.0 <= a < 1.0 && b > 0.0 ==> a * b < b
    ensures a == 1.0 ==> a * b == b
    ensures a == 0.0 ==> a * b == 0.0
  {
    if a > 0.0 && b > 0.0 {
      PosTimesPos(a, b);
    }
    if a >= 0.0 && b >= 0.0 {
      NonnegTimesNonneg(a, b);
    }
    if 0.0 <= a <= 1.0 && b >= 0.0 {
      NonnegTimesNonneg(1.0 - a, b);
      assert (1.0 - a) * b == b - a * b;
    }
    if 0.0 <= a < 1.0 && b > 0.0 {
      PosTimesPos(1.0 - a, b);
      assert (1.0 - a) * b == b - a * b;
    }
  }

  /** `a * b`, with its sign and order facts. */
  function Product(a: real, b: real): (p: real)
    ensures a > 0.0 && b > 0.0 ==> p > 0.0
    ensures a >= 0.0 && b >= 0.0 ==> p >= 0.0
    ensures 0.0 <= a <= 1.0 && b >= 0.0 ==> p <= b
    ensures 0.0 <= a < 1.0 && b > 0.0 ==> p < b
    ensures a == 1.0 ==> p == b
    ensures a == 0.0 ==> p == 0.0
  {
    ProductFacts(a, b);
    a * b
  }

  lemma ProductMonotone(a: real, b: real, c: real)
    requires a >= 0.0 && b <= c
    ensures Product(a, b) <= Product(a, c)
    ensures Product(b, a) <= Product(c, a)
  {
    NonnegTimesNonneg(a, c - b);
    assert a * (c - b) == a * c - a * b;
    assert (c - b) * a == c * a - b * a;
  }

  lemma SquareMonotone(a: real, b: real)
    requires 0.0 <= a <= b
    ensures Product(a, a) <= Product(b, b)
  {
    ProductMonotone(a, a, b);
    ProductMonotone(b, a, b);
  }

  /** `q * d` lies strictly below or above `d * 1` and `d * 0` as `q` does. */
  lemma ScaleStrict(q: real, d: real)
    requires d > 0.0
    ensures q < 0.0 ==> q * d < 0.0
    ensures q > 1.0 ==> q * d > d
  {
    if q < 0.0 {
      PosTimesPos(-q, d);
      assert (-q) * d == -(q * d);
    }
    if q > 1.0 {
      PosTimesPos(q - 1.0, d);
      assert (q - 1.0) * d == q * d - d;
    }
  }

  /** A quotient of a non-negative number by a larger positive one lies in [0, 1]. */
  lemma Ratio(a: real, d: real)
    requires 0.0 <= a <= d && d > 0.0
    ensures 0.0 <= a / d <= 1.0
  {
    assert (a / d) * d == a;
    ScaleStrict(a / d, d);
  }

  /** Dividing by a positive number keeps order. */
  lemma DivideMonotone(a: real, b: real, d: real)
    requires a <= b && d > 0.0
    ensures a / d <= b / d
  {
    var qa, qb := a / d, b / d;
    assert qa * d == a && qb * d == b;
    assert (qa - qb) * d == a - b;
    ScaleStrict(qb - qa, d);
    assert (qb - qa) * d == b - a;
  }

  /** A positive number divided by itself is one. */
  lemma SelfRatio(d: real)
    requires d > 0.0
    ensures d / d == 1.0
  {
  }
}
