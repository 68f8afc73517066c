/** The CVSS v3.1 base-score calculator: the Base Metrics equations of
    section 7.1 of the FIRST CVSS v3.1 Specification, evaluated on exact reals
    over the weight tables, with the calculator's own handling of unknown
    codes and of the scope code. */
module Calculator {
  import opened Wrappers
  import opened Weights
  import opened Rounding
  import Severity

  /** The eight raw metric codes, as received. */
  datatype Metrics = Metrics(av: string, ac: string, pr: string, ui: string,
                             s: string, c: string, i: string, a: string)

  /** The looked-up weights; pr is already the scope-selected one. */
  datatype MetricWeights = MetricWeights(av: real, ac: real, ui: real, pr: real,
                                         c: real, i: real, a: real)

  /** The calculator's result record. */
  datatype ScoreResult = ScoreResult(baseScore: real, impactScore: real,
                                     exploitabilityScore: real, severity: Severity.Label)

  /** Every code the calculator looks up is a key of its table. The scope code
      is not among them: it only selects a table and a formula. */
  predicate Known(m: Metrics) {
    && m.av in AttackVector
    && m.ac in AttackComplexity
    && m.ui in UserInteraction
    && m.pr in PrivilegesTable(m.s)
    && m.c in ImpactMetrics
    && m.i in ImpactMetrics
    && m.a in ImpactMetrics
  }

  /** The ranges the table weights fall in. */
  predicate InRange(w: MetricWeights) {
    && 0.0 < w.av <= 1.0 && 0.0 < w.ac <= 1.0 && 0.0 < w.ui <= 1.0 && 0.0 < w.pr <= 1.0
    && IsImpactWeight(w.c) && IsImpactWeight(w.i) && IsImpactWeight(w.a)
  }

  /** The seven lookups, in the calculator's order: av, ac, ui, then pr in the
      scope-selected table, then c, i, a. The first missing key aborts. */
  function LookupWeights(m: Metrics): (r: Result<MetricWeights, KeyError>)
    ensures r.Success? <==> Known(m)
    ensures r.Success? ==> InRange(r.value)
    ensures r.Success? ==> r.value.av == AttackVector[m.av]
    ensures r.Success? ==> r.value.ac == AttackComplexity[m.ac]
    ensures r.Success? ==> r.value.ui == UserInteraction[m.ui]
    ensures r.Success? ==> r.value.pr == PrivilegesTable(m.s)[m.pr]
    ensures r.Success? ==> r.value.c == ImpactMetrics[m.c]
    ensures r.Success? ==> r.value.i == ImpactMetrics[m.i]
    ensures r.Success? ==> r.value.a == ImpactMetrics[m.a]
  {
    var av :- Lookup(AttackVector, m.av);
    var ac :- Lookup(AttackComplexity, m.ac);
    var ui :- Lookup(UserInteraction, m.ui);
    var pr :- Lookup(PrivilegesTable(m.s), m.pr);
    var c :- Lookup(ImpactMetrics, m.c);
    var i :- Lookup(ImpactMetrics, m.i);
    var a :- Lookup(ImpactMetrics, m.a);
    Success(MetricWeights(av, ac, ui, pr, c, i, a))
  }

  /** The Impact Sub-Score. It is 0 exactly when C, I and A are all None,
      at least 0.22 as soon as one of them is not, and at most 0.914816
      (all three High). */
  function Iss(w: MetricWeights): (r: real)
    requires InRange(w)
    ensures 0.0 <= r <= 0.914816
    ensures r == 0.0 <==> w.c == 0.0 && w.i == 0.0 && w.a == 0.0
    ensures r == 0.0 || 0.22 <= r
  {
    ImpactFactors(w.c, w.i, w.a);
    1.0 - (1.0 - w.c) * (1.0 - w.i) * (1.0 - w.a)
  }

  /** The product of the three "no impact" factors 1 - weight: 1 only
      without impact, otherwise at most 0.78, and never below 0.44^3. */
  lemma ImpactFactors(c: real, i: real, a: real)
    requires IsImpactWeight(c) && IsImpactWeight(i) && IsImpactWeight(a)
    ensures 0.085184 <= (1.0 - c) * (1.0 - i) * (1.0 - a) <= 1.0
    ensures (1.0 - c) * (1.0 - i) * (1.0 - a) == 1.0 <==> c == 0.0 && i == 0.0 && a == 0.0
    ensures (1.0 - c) * (1.0 - i) * (1.0 - a) == 1.0 || (1.0 - c) * (1.0 - i) * (1.0 - a) <= 0.78
  {
    var x, y, z := 1.0 - c, 1.0 - i, 1.0 - a;
    MulMonotone(0.44, x, 0.44, y);
    MulMonotone(0.1936, x * y, 0.44, z);
    MulMonotone(x, 1.0, y, 1.0);
    MulMonotone(x * y, 1.0, z, 1.0);
    if x <= 0.78 {
      MulMonotone(x, 0.78, y, 1.0);
      MulMonotone(x * y, 0.78, z, 1.0);
    } else if y <= 0.78 {
      MulMonotone(x, 1.0, y, 0.78);
      MulMonotone(x * y, 0.78, z, 1.0);
    } else if z <= 0.78 {
      MulMonotone(x * y, 1.0, z, 0.78);
    }
  }

  /** The changed-scope impact equation. The 15th-power term is small on
      [0, 1]: the result is negative below ISS 0.029 and positive from
      ISS 0.036 on. */
  function ChangedImpact(iss: real): (r: real)
    ensures 0.0 <= iss < 0.029 ==> r < 0.0
    ensures 0.036 <= iss <= 1.0 ==> 0.0 < r
  {
    PowShrinks(iss - 0.02, 15);
    PowSign(iss - 0.02, 15);
    7.52 * (iss - 0.029) - 3.25 * Pow(iss - 0.02, 15)
  }

  /** The impact: the unchanged equation only for scope "U", the changed one
      for every other scope string. Either way it is positive once the ISS
      reaches 0.036; without impact it is 0 under "U" and negative otherwise. */
  function Impact(iss: real, s: string): (r: real)
    ensures 0.036 <= iss <= 1.0 ==> 0.0 < r
    ensures iss == 0.0 ==> (s == "U" ==> r == 0.0) && (s != "U" ==> r < 0.0)
    ensures s == "U" ==> (0.0 < r <==> 0.0 < iss)
  {
    if s == "U" then 6.42 * iss else ChangedImpact(iss)
  }

  /** The exploitability: positive, and at most 8.22 since every weight is
      at most 1. */
  function Exploitability(w: MetricWeights): (r: real)
    requires InRange(w)
    ensures 0.0 < r <= 8.22
  {
    var p1 := w.av * w.ac;
    MulUnit(w.av, w.ac);
    var p2 := p1 * w.pr;
    MulUnit(p1, w.pr);
    var p3 := p2 * w.ui;
    MulUnit(p2, w.ui);
    assert 8.22 * w.av * w.ac * w.pr * w.ui == 8.22 * p3;
    8.22 * w.av * w.ac * w.pr * w.ui
  }

  /** The base score before rounding up: zero without impact, otherwise the
      (scope "U": plain, any other scope: 1.08-scaled) sum capped at 10. */
  function Unrounded(impact: real, exploitability: real, s: string): (r: real)
    ensures exploitability >= 0.0 ==> 0.0 <= r <= 10.0
    ensures exploitability >= 0.0 ==> (r == 0.0 <==> impact <= 0.0)
  {
    if impact <= 0.0 then 0.0
    else if s == "U" then Min(10.0, impact + exploitability)
    else Min(10.0, 1.08 * (impact + exploitability))
  }

  /** Python's `min` on two numbers, as applied to cap the base score at 10. */
  function Min(x: real, y: real): real {
    if x <= y then x else y
  }

  /** A well-formed result: the base score is a multiple of 0.1 in
      [0.0, 10.0], the sub-scores are multiples of 0.1, and the severity is the
      base score's rating, which is one of the five real labels. */
  predicate WellFormed(r: ScoreResult) {
    && 0.0 <= r.baseScore <= 10.0
    && IsTenth(r.baseScore)
    && IsTenth(r.impactScore)
    && IsTenth(r.exploitabilityScore)
    && r.severity == Severity.Rating(r.baseScore)
    && r.severity != Severity.Unknown
  }

  /** The arithmetic half of the calculator, on looked-up weights. */
  function Score(w: MetricWeights, s: string): (r: ScoreResult)
    requires InRange(w)
    ensures WellFormed(r)
    ensures Unrounded(Impact(Iss(w), s), Exploitability(w), s) <= r.baseScore
    ensures r.baseScore < Unrounded(Impact(Iss(w), s), Exploitability(w), s) + 0.1
    ensures -0.05 <= r.impactScore - Impact(Iss(w), s) <= 0.05
    ensures -0.05 <= r.exploitabilityScore - Exploitability(w) <= 0.05
  {
    var impact := Impact(Iss(w), s);
    var exploitability := Exploitability(w);
    var base := RoundUp(Unrounded(impact, exploitability, s));
    Severity.RatingTotalOnScores(base);
    ScoreResult(base, RoundHalfEven(impact), RoundHalfEven(exploitability), Severity.Rating(base))
  }

  /** `calculate_base_score`: the lookups, then the equations. It fails
      exactly when some looked-up code is missing from its table, and every
      result it produces is well formed. */
  function CalculateBaseScore(m: Metrics): (r: Result<ScoreResult, KeyError>)
    ensures r.Success? <==> Known(m)
    ensures r.Success? ==> WellFormed(r.value)
    ensures r.Failure? ==> r.error.key in {m.av, m.ac, m.ui, m.pr, m.c, m.i, m.a}
  {
    var w :- LookupWeights(m);
    Success(Score(w, m.s))
  }
}
