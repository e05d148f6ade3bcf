/** Angles on the circle, for scripts/refine_initialpose_offline.py, with pi as a positive parameter. */
module Angles {
  /** How many whole turns separate an angle from its representative. */
  function Turns(a: real, pi: real): int
    requires pi > 0.0
  {
    -((pi - a) / (2.0 * pi)).Floor
  }

  /** The representative around zero that the arc tangent of sine and cosine gives. */
  function Normalize(a: real, pi: real): real
    requires pi > 0.0
  {
    a - 2.0 * pi * Turns(a, pi) as real
  }

  function Abs(x: real): real {
    if x < 0.0 then -x else x
  }

  function AngularDistance(a: real, b: real, pi: real): real
    requires pi > 0.0
  {
    Abs(Normalize(a - b, pi))
  }

  lemma QuotientBounds(x: real, d: real, k: int)
    requires d > 0.0 && k == (x / d).Floor
    ensures k as real * d <= x < k as real * d + d
  {
    var q, f := x / d, k as real;
    assert q * d == x;
    assert f <= q < f + 1.0;
    MulOrder(f, q, d);
    MulOrder(q, f + 1.0, d);
    var above := (f + 1.0) * d;
    assert above == f * d + d;
    assert x < above;
  }

  lemma MulOrder(a: real, b: real, d: real)
    requires d > 0.0
    ensures a < b <==> a * d < b * d
    ensures a == b ==> a * d == b * d
  {
    assert (b - a) * d == b * d - a * d;
    if a < b { assert (b - a) * d > 0.0; }
    if b < a { assert (a - b) * d > 0.0; }
  }

  lemma NormalizeRange(a: real, pi: real)
    requires pi > 0.0
    ensures -pi < Normalize(a, pi) <= pi
  {
    var k := -Turns(a, pi);
    QuotientBounds(pi - a, 2.0 * pi, k);
    assert Normalize(a, pi) == a + k as real * (2.0 * pi);
  }

  /** Only one whole number of turns leads into the half-open range around zero. */
  lemma NormalizeUnique(a: real, k: int, pi: real)
    requires pi > 0.0
    requires -pi < a - 2.0 * pi * k as real <= pi
    ensures Normalize(a, pi) == a - 2.0 * pi * k as real
  {
    NormalizeRange(a, pi);
    var t := Turns(a, pi);
    var gap := (t - k) as real;
    assert -2.0 * pi < 2.0 * pi * gap < 2.0 * pi by {
      assert 2.0 * pi * gap == (a - 2.0 * pi * k as real) - Normalize(a, pi);
    }
    MulOrder(-1.0, gap, 2.0 * pi);
    MulOrder(gap, 1.0, 2.0 * pi);
    assert -1.0 < gap < 1.0;
  }

  /** No angle is nearer to zero than its representative. */
  lemma NormalizeSmallest(a: real, pi: real)
    requires pi > 0.0
    ensures Abs(Normalize(a, pi)) <= Abs(a)
  {
    NormalizeRange(a, pi);
    if -pi < a <= pi {
      NormalizeUnique(a, 0, pi);
    }
  }

  /** Normalising a summand first does not change the distance. */
  lemma DistanceOfNormalized(a: real, b: real, pi: real)
    requires pi > 0.0
    ensures AngularDistance(Normalize(a, pi), b, pi) == AngularDistance(a, b, pi)
  {
    var t, u := Turns(a, pi), Turns(a - b, pi);
    NormalizeRange(a - b, pi);
    assert Normalize(a, pi) - b - 2.0 * pi * (u - t) as real == Normalize(a - b, pi);
    NormalizeUnique(Normalize(a, pi) - b, u - t, pi);
  }

  /** Whole turns do not change the representative, so it is the nearest to zero of them all. */
  lemma NormalizeNearest(a: real, k: int, pi: real)
    requires pi > 0.0
    ensures Abs(Normalize(a, pi)) <= Abs(a - 2.0 * pi * k as real)
  {
    var b, t := a - 2.0 * pi * k as real, Turns(a, pi);
    NormalizeRange(a, pi);
    assert b - 2.0 * pi * (t - k) as real == Normalize(a, pi);
    NormalizeUnique(b, t - k, pi);
    NormalizeSmallest(b, pi);
  }

  /** Opposite angles are equally far from zero. */
  lemma NormalizeMirrors(a: real, pi: real)
    requires pi > 0.0
    ensures Abs(Normalize(-a, pi)) == Abs(Normalize(a, pi))
  {
    NormalizeNearest(-a, -Turns(a, pi), pi);
    NormalizeNearest(a, -Turns(-a, pi), pi);
    assert -a - 2.0 * pi * (-Turns(a, pi)) as real == -Normalize(a, pi);
    assert a - 2.0 * pi * (-Turns(-a, pi)) as real == -Normalize(-a, pi);
  }

  /** Angular distances differ by no more than the angles do. */
  lemma DistanceIsSteady(a: real, b: real, c: real, pi: real)
    requires pi > 0.0
    ensures AngularDistance(a, c, pi) <= AngularDistance(b, c, pi) + Abs(a - b)
  {
    var t := Turns(b - c, pi);
    NormalizeNearest(a - c, t, pi);
    assert a - c - 2.0 * pi * t as real == Normalize(b - c, pi) + (a - b);
  }
}
