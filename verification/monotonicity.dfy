/** Raising any of the Confidentiality, Integrity or Availability impacts
    (N to L to H) never lowers the base score, under every scope code. Under a
    changed scope this is not a property of the impact equation alone: that
    equation peaks near ISS 0.895 and falls beyond it. It holds because the
    only ISS value past 0.85 is the one for C:H/I:H/A:H, which still lies above
    every other. */
module Monotonicity {
  import opened Wrappers
  import opened Weights
  import opened Rounding
  import opened Calculator
  import opened Properties

  /** The ISS grows with each impact weight. */
  lemma IssMonotone(w: MetricWeights, w': MetricWeights)
    requires InRange(w) && InRange(w')
    requires w.c <= w'.c && w.i <= w'.i && w.a <= w'.a
    ensures 0.0 <= Iss(w) <= Iss(w')
  {
  }

  /** Only C:H/I:H/A:H puts the ISS above 0.85; every other combination stays
      at or below 0.848992 (two High and one Low). */
  lemma IssAboveOnlyAllHigh(w: MetricWeights)
    requires InRange(w)
    ensures (w.c == 0.56 && w.i == 0.56 && w.a == 0.56) ==> Iss(w) == 0.914816
    ensures !(w.c == 0.56 && w.i == 0.56 && w.a == 0.56) ==> Iss(w) <= 0.848992
  {
    var top := MetricWeights(w.av, w.ac, w.ui, w.pr, 0.56, 0.56, 0.56);
    if w.c != 0.56 {
      IssMonotone(w, top.(c := 0.22));
    } else if w.i != 0.56 {
      IssMonotone(w, top.(i := 0.22));
    } else if w.a != 0.56 {
      IssMonotone(w, top.(a := 0.22));
    }
  }

  /** The changed-scope impact equation rises on [0, 0.85]: there
      3.25 * (ISS - 0.02)^15 changes at most 3.25 * 1.2 = 3.9 per unit of ISS,
      less than the linear term's 7.52. */
  lemma ChangedImpactMonotone(x: real, y: real)
    requires 0.0 <= x <= y <= 0.85
    ensures ChangedImpact(x) <= ChangedImpact(y)
  {
    var x0, y0 := x - 0.02, y - 0.02;
    PowDifferenceFactors(x0, y0, 15);
    GeomSumBound(x0, y0, 0.83, 15);
    assert GeomSum(0.83, 0.83, 15) <= 1.2;
    var g := GeomSum(x0, y0, 15);
    ScaleBound(y - x, g, 1.2);
    LinearBeatsPower(x, y, Pow(x0, 15), Pow(y0, 15), g);
  }

  /** k >= 0 and g <= bound give k*g <= k*bound. */
  lemma ScaleBound(k: real, g: real, bound: real)
    requires 0.0 <= k && g <= bound
    ensures k * g <= k * bound
  {
  }

  /** The last step of ChangedImpactMonotone, with the powers named. */
  lemma LinearBeatsPower(x: real, y: real, px: real, py: real, g: real)
    requires x <= y
    requires py - px == (y - x) * g
    requires (y - x) * g <= (y - x) * 1.2
    ensures 7.52 * (x - 0.029) - 3.25 * px <= 7.52 * (y - 0.029) - 3.25 * py
  {
  }

  /** Past its peak the equation has fallen by less than the gap to the next
      lower reachable ISS. */
  lemma ChangedImpactTopStep()
    ensures ChangedImpact(0.848992) <= ChangedImpact(0.914816)
  {
    assert 0.06 <= Pow(0.828992, 15) <= 0.0601;
    assert 0.188 <= Pow(0.894816, 15) <= 0.189;
  }

  /** The impact grows with each impact weight, under every scope code. */
  lemma ImpactMonotone(w: MetricWeights, w': MetricWeights, s: string)
    requires InRange(w) && InRange(w')
    requires w.c <= w'.c && w.i <= w'.i && w.a <= w'.a
    ensures Impact(Iss(w), s) <= Impact(Iss(w'), s)
  {
    var x, y := Iss(w), Iss(w');
    IssMonotone(w, w');
    if s != "U" {
      IssAboveOnlyAllHigh(w);
      IssAboveOnlyAllHigh(w');
      if y <= 0.85 {
        ChangedImpactMonotone(x, y);
      } else if x <= 0.848992 {
        ChangedImpactMonotone(x, 0.848992);
        ChangedImpactTopStep();
      }
    }
  }

  /** The base score before rounding grows with the impact. */
  lemma UnroundedMonotone(impact: real, impact': real, exploitability: real, s: string)
    requires impact <= impact' && exploitability >= 0.0
    ensures Unrounded(impact, exploitability, s) <= Unrounded(impact', exploitability, s)
  {
  }

  /** Raising C, I and/or A along N, L, H never lowers the base score. */
  lemma BaseScoreMonotoneInImpact(m: Metrics, c: string, i: string, a: string)
    requires Known(m)
    requires c in ImpactMetrics && i in ImpactMetrics && a in ImpactMetrics
    requires ImpactMetrics[m.c] <= ImpactMetrics[c]
    requires ImpactMetrics[m.i] <= ImpactMetrics[i]
    requires ImpactMetrics[m.a] <= ImpactMetrics[a]
    ensures CalculateBaseScore(m.(c := c, i := i, a := a)).Success?
    ensures CalculateBaseScore(m).value.baseScore
            <= CalculateBaseScore(m.(c := c, i := i, a := a)).value.baseScore
  {
    var m' := m.(c := c, i := i, a := a);
    var w, w' := LookupWeights(m).value, LookupWeights(m').value;
    CalculateIsScore(m);
    CalculateIsScore(m');
    assert w' == w.(c := w'.c, i := w'.i, a := w'.a);
    ScoreMonotoneInImpact(w, w', m.s);
  }

  /** BaseScoreMonotoneInImpact on looked-up weights. */
  lemma ScoreMonotoneInImpact(w: MetricWeights, w': MetricWeights, s: string)
    requires InRange(w) && InRange(w')
    requires w' == w.(c := w'.c, i := w'.i, a := w'.a)
    requires w.c <= w'.c && w.i <= w'.i && w.a <= w'.a
    ensures Score(w, s).baseScore <= Score(w', s).baseScore
  {
    var e := Exploitability(w);
    assert Exploitability(w') == e;
    var impact, impact' := Impact(Iss(w), s), Impact(Iss(w'), s);
    ImpactMonotone(w, w', s);
    UnroundedMonotone(impact, impact', e, s);
    RoundUpMonotone(Unrounded(impact, e, s), Unrounded(impact', e, s));
  }
}
