/** Exact real arithmetic used by the score equations: integer powers, the
    one-decimal ceiling applied to the base score, and the nearest-tenth
    rounding applied to the impact and exploitability sub-scores. */
module Rounding {

  /** x raised to the natural power n. */
  function Pow(x: real, n: nat): real {
    if n == 0 then 1.0 else x * Pow(x, n - 1)
  }

  /** Even powers and powers of a non-negative base are non-negative; odd
      powers of a non-positive base are non-positive. */
  lemma {:induction false} PowSign(x: real, n: nat)
    ensures n % 2 == 0 ==> 0.0 <= Pow(x, n)
    ensures 0.0 <= x ==> 0.0 <= Pow(x, n)
    ensures x <= 0.0 && n % 2 == 1 ==> Pow(x, n) <= 0.0
  {
    if n > 0 {
      PowSign(x, n - 1);
      var p := Pow(x, n - 1);
      if 0.0 <= x {
        assert 0.0 <= x * p;
      } else if n % 2 == 0 {
        assert p <= 0.0;
        assert 0.0 <= x * p;
      } else {
        assert 0.0 <= p;
        assert x * p <= 0.0;
      }
    }
  }

  /** On [-1, 1] a positive power stays in [-1, 1] and moves toward 0:
      below x for x >= 0, above x for x <= 0 and odd n. */
  lemma {:induction false} PowShrinks(x: real, n: nat)
    ensures Within(x, 1.0) && 1 <= n ==> Within(Pow(x, n), 1.0)
    ensures 0.0 <= x <= 1.0 && 1 <= n ==> Pow(x, n) <= x
    ensures -1.0 <= x <= 0.0 && n % 2 == 1 ==> x <= Pow(x, n)
  {
    if n == 1 {
      assert Pow(x, 1) == x * Pow(x, 0) == x;
    } else if Within(x, 1.0) && 1 < n {
      PowShrinks(x, n - 1);
      PowSign(x, n - 1);
      var p := Pow(x, n - 1);
      assert Pow(x, n) == x * p;
      assert Within(p, 1.0);
      MulBound(x, 1.0, p, 1.0);
      if 0.0 <= x {
        MulMonotone(x, x, p, 1.0);
        assert x * p <= x;
      } else if n % 2 == 1 {
        assert 0.0 <= p <= 1.0;
        assert x * p >= x;
      }
    }
  }

  /** The product of two numbers in (0, 1] is again in (0, 1]. */
  lemma MulUnit(x: real, y: real)
    requires 0.0 < x <= 1.0 && 0.0 < y <= 1.0
    ensures 0.0 < x * y <= 1.0
  {
    MulMonotone(x, 1.0, y, 1.0);
    assert 0.0 < x * y;
  }

  /** 0 <= x <= x' and 0 <= y <= y' give x*y <= x'*y'. */
  lemma MulMonotone(x: real, x': real, y: real, y': real)
    requires 0.0 <= x <= x' && 0.0 <= y <= y'
    ensures x * y <= x' * y'
  {
    assert x * y <= x' * y;
    assert x' * y <= x' * y';
  }

  /** x is a multiple of 0.1, that is, it has at most one fractional decimal digit. */
  predicate IsTenth(x: real) {
    (x * 10.0).Floor as real == x * 10.0
  }

  /** The least integer not below x. */
  function Ceil(x: real): (r: int)
    ensures x <= r as real < x + 1.0
  {
    -((-x).Floor)
  }

  /** `math.ceil(x * 10) / 10`: the least multiple of 0.1 not below x. */
  function RoundUp(x: real): (r: real)
    ensures IsTenth(r)
    ensures x <= r < x + 0.1
    ensures IsTenth(x) ==> r == x
  {
    var k := Ceil(x * 10.0);
    assert (k as real / 10.0) * 10.0 == k as real;
    assert IsTenth(x) ==> k == (x * 10.0).Floor;
    k as real / 10.0
  }

  /** RoundUp picks the LEAST multiple of 0.1 at or above x. */
  lemma RoundUpIsLeast(x: real, t: real)
    requires IsTenth(t) && x <= t
    ensures RoundUp(x) <= t
  {
    var k := (t * 10.0).Floor;
    assert k as real == t * 10.0;
    assert Ceil(x * 10.0) <= k;
  }

  /** RoundUp never reverses the order of two scores. */
  lemma RoundUpMonotone(x: real, y: real)
    requires x <= y
    ensures RoundUp(x) <= RoundUp(y)
  {
    RoundUpIsLeast(x, RoundUp(y));
  }

  /** `round(x, 1)` on exact reals: the nearest multiple of 0.1, and on an exact
      tie the one whose tenths count is even. */
  function RoundHalfEven(x: real): (r: real)
    ensures IsTenth(r)
    ensures -0.05 <= r - x <= 0.05
    ensures (r - x == 0.05 || x - r == 0.05) ==> (r * 10.0).Floor % 2 == 0
  {
    var y := x * 10.0;
    var n := y.Floor;
    var f := y - n as real;
    var k := if f < 0.5 then n else if f > 0.5 then n + 1 else if n % 2 == 0 then n else n + 1;
    k as real / 10.0
  }

  /** Away from ties, RoundHalfEven returns THE multiple of 0.1 nearest to x:
      any multiple of 0.1 strictly within 0.05 of x is its result. */
  lemma RoundHalfEvenIsNearest(x: real, t: real)
    requires IsTenth(t)
    requires -0.05 < t - x < 0.05
    ensures RoundHalfEven(x) == t
  {
    var r := RoundHalfEven(x);
    var kr := (r * 10.0).Floor;
    var kt := (t * 10.0).Floor;
    assert kr as real == r * 10.0 && kt as real == t * 10.0;
    assert -1.0 < (kr - kt) as real < 1.0;
  }

  /** -bound <= v <= bound */
  predicate Within(v: real, bound: real) {
    -bound <= v <= bound
  }

  /** The sum of x^j * y^(n-1-j) for j < n, the cofactor of y - x in y^n - x^n. */
  function GeomSum(x: real, y: real, n: nat): real {
    if n == 0 then 0.0 else Pow(y, n - 1) + x * GeomSum(x, y, n - 1)
  }

  /** y^n - x^n factors as (y - x) times GeomSum(x, y, n). */
  lemma {:induction false} PowDifferenceFactors(x: real, y: real, n: nat)
    ensures Pow(y, n) - Pow(x, n) == (y - x) * GeomSum(x, y, n)
  {
    if n > 0 {
      PowDifferenceFactors(x, y, n - 1);
      FactorStep(x, y, Pow(x, n - 1), Pow(y, n - 1), GeomSum(x, y, n - 1));
    }
  }

  /** The induction step of PowDifferenceFactors, with the powers named. */
  lemma FactorStep(x: real, y: real, px: real, py: real, g: real)
    requires py - px == (y - x) * g
    ensures y * py - x * px == (y - x) * (py + x * g)
  {
  }

  /** |a| <= m bounds every power of a by the same power of m. */
  lemma {:induction false} PowBound(a: real, m: real, n: nat)
    requires Within(a, m)
    ensures Within(Pow(a, n), Pow(m, n))
  {
    if n > 0 {
      PowBound(a, m, n - 1);
      MulBound(a, m, Pow(a, n - 1), Pow(m, n - 1));
    }
  }

  /** |x| <= xb and |y| <= yb give |x*y| <= xb*yb. */
  lemma MulBound(x: real, xb: real, y: real, yb: real)
    requires Within(x, xb) && Within(y, yb)
    ensures Within(x * y, xb * yb)
  {
    assert 0.0 <= xb * yb;
    if x >= 0.0 {
      if y >= 0.0 { assert x * y <= xb * y <= xb * yb; }
      else { assert x * y >= x * -yb >= -xb * yb; }
    } else {
      if y >= 0.0 { assert x * y >= -xb * y >= -xb * yb; assert x * y <= 0.0; }
      else { assert x * y <= -xb * -yb; }
    }
  }

  /** On [-m, m] the cofactor GeomSum is bounded by its value at (m, m). */
  lemma {:induction false} GeomSumBound(x: real, y: real, m: real, n: nat)
    requires Within(x, m) && Within(y, m)
    ensures Within(GeomSum(x, y, n), GeomSum(m, m, n))
  {
    if n > 0 {
      GeomSumBound(x, y, m, n - 1);
      PowBound(y, m, n - 1);
      GeomStep(x, m, Pow(y, n - 1), GeomSum(x, y, n - 1), Pow(m, n - 1), GeomSum(m, m, n - 1));
    }
  }

  /** The induction step of GeomSumBound, with the powers named. */
  lemma GeomStep(x: real, m: real, py: real, g: real, pm: real, gm: real)
    requires Within(x, m) && Within(py, pm) && Within(g, gm)
    ensures Within(py + x * g, pm + m * gm)
  {
    MulBound(x, m, g, gm);
  }
}
