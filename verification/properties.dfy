/** Properties of the base-score calculator: its worked examples, the
    no-impact case, the exploitability range, how the unvalidated scope code
    steers the equations, and which unknown code is reported. */
module Properties {
  import opened Wrappers
  import opened Weights
  import opened Rounding
  import Severity
  import opened Calculator

  /** The (code, table) pairs in the order the calculator looks them up. */
  function LookupOrder(m: Metrics): seq<(string, Table)> {
    [(m.av, AttackVector), (m.ac, AttackComplexity), (m.ui, UserInteraction),
     (m.pr, PrivilegesTable(m.s)), (m.c, ImpactMetrics), (m.i, ImpactMetrics),
     (m.a, ImpactMetrics)]
  }

  /** The first code of the list its table does not hold, if any. */
  function FirstUnknown(checks: seq<(string, Table)>): Option<string> {
    if |checks| == 0 then None
    else if checks[0].0 !in checks[0].1 then Some(checks[0].0)
    else FirstUnknown(checks[1..])
  }

  /** The calculator fails exactly when some code is missing from its table,
      and the error it raises names the first such code in lookup order. */
  lemma UnknownCodeRaisesKeyError(m: Metrics)
    ensures CalculateBaseScore(m).Failure? <==> FirstUnknown(LookupOrder(m)).Some?
    ensures CalculateBaseScore(m).Failure? ==>
              CalculateBaseScore(m).error == KeyError(FirstUnknown(LookupOrder(m)).value)
  {
    var order := LookupOrder(m);
    assert FirstUnknown(order) == if m.av !in AttackVector then Some(m.av) else FirstUnknown(order[1..]);
    assert FirstUnknown(order[1..]) == if m.ac !in AttackComplexity then Some(m.ac) else FirstUnknown(order[2..]);
    assert FirstUnknown(order[2..]) == if m.ui !in UserInteraction then Some(m.ui) else FirstUnknown(order[3..]);
    assert FirstUnknown(order[3..]) == if m.pr !in PrivilegesTable(m.s) then Some(m.pr) else FirstUnknown(order[4..]);
    assert FirstUnknown(order[4..]) == if m.c !in ImpactMetrics then Some(m.c) else FirstUnknown(order[5..]);
    assert FirstUnknown(order[5..]) == if m.i !in ImpactMetrics then Some(m.i) else FirstUnknown(order[6..]);
    assert FirstUnknown(order[6..]) == if m.a !in ImpactMetrics then Some(m.a) else FirstUnknown(order[7..]);
    assert order[7..] == [];
  }

  /** AV:N/AC:L/PR:N/UI:N/S:U/C:H/I:H/A:H scores 9.8 (Critical). */
  lemma NetworkFullImpactUnchanged()
    ensures CalculateBaseScore(Metrics("N", "L", "N", "N", "U", "H", "H", "H"))
            == Success(ScoreResult(9.8, 5.9, 3.9, Severity.Critical))
  {
    var w := MetricWeights(0.85, 0.77, 0.85, 0.85, 0.56, 0.56, 0.56);
    assert LookupWeights(Metrics("N", "L", "N", "N", "U", "H", "H", "H")) == Success(w);
    assert Iss(w) == 0.914816;
    assert Impact(0.914816, "U") == 5.87311872;
    assert Exploitability(w) == 3.887042775;
    assert Unrounded(5.87311872, 3.887042775, "U") == 9.760161495;
    assert RoundUp(9.760161495) == 9.8;
    assert RoundHalfEven(5.87311872) == 5.9;
    assert RoundHalfEven(3.887042775) == 3.9;
  }

  /** The same vector with S:C: the 1.08 factor pushes the sum past 10, so the
      cap yields exactly 10.0. */
  lemma NetworkFullImpactChanged()
    ensures CalculateBaseScore(Metrics("N", "L", "N", "N", "C", "H", "H", "H"))
            == Success(ScoreResult(10.0, 6.0, 3.9, Severity.Critical))
  {
    var w := MetricWeights(0.85, 0.77, 0.85, 0.85, 0.56, 0.56, 0.56);
    assert LookupWeights(Metrics("N", "L", "N", "N", "C", "H", "H", "H")) == Success(w);
    assert Iss(w) == 0.914816;
    assert 0.188 <= Pow(0.894816, 15) <= 0.189;
    var impact := Impact(0.914816, "C");
    assert 6.04 <= impact <= 6.05;
    assert Exploitability(w) == 3.887042775;
    assert Unrounded(impact, 3.887042775, "C") == 10.0;
    assert RoundUp(10.0) == 10.0;
    assert RoundHalfEven(impact) == 6.0;
    assert RoundHalfEven(3.887042775) == 3.9;
  }

  /** The full-impact network vector reaches 10.0 under every scope code but
      "U", listed or not. */
  lemma NetworkFullImpactOtherScopes(s: string)
    requires s != "U"
    ensures CalculateBaseScore(Metrics("N", "L", "N", "N", s, "H", "H", "H"))
            == Success(ScoreResult(10.0, 6.0, 3.9, Severity.Critical))
  {
    NetworkFullImpactChanged();
    if s != "C" {
      UnlistedScopeMixesEquations(Metrics("N", "L", "N", "N", s, "H", "H", "H"));
    }
  }

  /** With no confidentiality, integrity or availability impact the ISS is 0,
      so the base score is 0.0 and rated None. The impact sub-score is 0.0 only
      under scope "U": every other scope uses the changed-scope equation, which
      is negative at 0 and rounds to -0.2. */
  lemma NoImpactScoresZero(m: Metrics)
    requires m.c == "N" && m.i == "N" && m.a == "N"
    requires Known(m)
    ensures CalculateBaseScore(m).value.baseScore == 0.0
    ensures CalculateBaseScore(m).value.severity == Severity.None
    ensures CalculateBaseScore(m).value.impactScore == if m.s == "U" then 0.0 else -0.2
  {
    CalculateIsScore(m);
    NoImpactScore(LookupWeights(m).value, m.s);
  }

  /** NoImpactScoresZero on looked-up weights. */
  lemma NoImpactScore(w: MetricWeights, s: string)
    requires InRange(w) && w.c == 0.0 && w.i == 0.0 && w.a == 0.0
    ensures Score(w, s).baseScore == 0.0
    ensures Score(w, s).severity == Severity.None
    ensures Score(w, s).impactScore == if s == "U" then 0.0 else -0.2
  {
    assert Iss(w) == 0.0;
    var impact := Impact(Iss(w), s);
    if s == "U" {
      assert impact == 0.0;
      RoundHalfEvenIsNearest(impact, 0.0);
    } else {
      ChangedImpactAtZero();
      RoundHalfEvenIsNearest(impact, -0.2);
    }
    assert Unrounded(impact, Exploitability(w), s) == 0.0;
  }

  /** The base score is 0.0 (rated None) exactly when C, I and A are all
      None: any impact puts the ISS at 0.22 or more, the impact above 0 and
      the base score above 0. */
  lemma BaseScoreZeroIffNoImpact(m: Metrics)
    requires Known(m)
    ensures CalculateBaseScore(m).value.baseScore == 0.0 <==> m.c == "N" && m.i == "N" && m.a == "N"
    ensures CalculateBaseScore(m).value.severity == Severity.None
            <==> m.c == "N" && m.i == "N" && m.a == "N"
  {
    CalculateIsScore(m);
    var w := LookupWeights(m).value;
    if m.c == "N" && m.i == "N" && m.a == "N" {
      NoImpactScore(w, m.s);
    } else {
      assert w.c != 0.0 || w.i != 0.0 || w.a != 0.0;
      SomeImpactScore(w, m.s);
    }
  }

  /** BaseScoreZeroIffNoImpact on looked-up weights with some impact. */
  lemma SomeImpactScore(w: MetricWeights, s: string)
    requires InRange(w) && (w.c != 0.0 || w.i != 0.0 || w.a != 0.0)
    ensures 0.0 < Score(w, s).baseScore
  {
    var impact := Impact(Iss(w), s);
    assert 0.0 < impact;
    assert 0.0 < Unrounded(impact, Exploitability(w), s);
  }

  /** Every accepted input has exploitability between 0.121090464
      (AV:P/AC:H/PR:H/UI:R under scope "U") and 3.887042775
      (AV:N/AC:L/PR:N/UI:N), so its exploitability sub-score is at most 3.9. */
  lemma ExploitabilityRange(m: Metrics)
    requires Known(m)
    ensures 0.121090464 <= Exploitability(LookupWeights(m).value) <= 3.887042775
    ensures 0.1 <= CalculateBaseScore(m).value.exploitabilityScore <= 3.9
  {
    CalculateIsScore(m);
    var w := LookupWeights(m).value;
    assert 0.2 <= w.av <= 0.85 && 0.44 <= w.ac <= 0.77;
    assert 0.27 <= w.pr <= 0.85 && 0.62 <= w.ui <= 0.85;
    ExploitabilityBounds(w);
    RoundedBetween(Exploitability(w), 1, 39);
  }

  /** Exploitability over the weight ranges the tables allow. */
  lemma ExploitabilityBounds(w: MetricWeights)
    requires InRange(w)
    requires 0.2 <= w.av <= 0.85 && 0.44 <= w.ac <= 0.77
    requires 0.27 <= w.pr <= 0.85 && 0.62 <= w.ui <= 0.85
    ensures 0.121090464 <= Exploitability(w) <= 3.887042775
  {
    var p1 := w.av * w.ac;
    MulMonotone(0.2, w.av, 0.44, w.ac);
    MulMonotone(w.av, 0.85, w.ac, 0.77);
    var p2 := p1 * w.pr;
    MulMonotone(0.088, p1, 0.27, w.pr);
    MulMonotone(p1, 0.6545, w.pr, 0.85);
    var p3 := p2 * w.ui;
    MulMonotone(0.02376, p2, 0.62, w.ui);
    MulMonotone(p2, 0.556325, w.ui, 0.85);
    assert Exploitability(w) == 8.22 * p3;
  }

  /** A value within [lo/10, hi/10] rounds to a tenth within the same range. */
  lemma RoundedBetween(x: real, lo: int, hi: int)
    requires lo as real / 10.0 <= x <= hi as real / 10.0
    ensures lo as real / 10.0 <= RoundHalfEven(x) <= hi as real / 10.0
  {
    var r := RoundHalfEven(x);
    var k := (r * 10.0).Floor;
    assert k as real == r * 10.0;
    assert (lo - 1) as real < k as real < (hi + 1) as real;
    assert lo <= k <= hi;
    assert r == k as real / 10.0;
  }

  /** The changed-scope impact equation at ISS 0 is just above -0.21808. */
  lemma ChangedImpactAtZero()
    ensures -0.2181 <= ChangedImpact(0.0) <= -0.218
  {
    assert -0.000000000000000000001 <= Pow(-0.02, 15) <= 0.0;
  }

  /** The scope code is never checked: whether the calculator succeeds does
      not depend on it. */
  lemma ScopeNeverRejected(m: Metrics, s: string)
    ensures CalculateBaseScore(m).Success? <==> CalculateBaseScore(m.(s := s)).Success?
  {
  }

  /** A scope code other than "U" and "C" takes the unchanged Privileges
      Required table (as "U" does) but the changed-scope impact and base
      equations (as "C" does). With PR:N, whose weight both tables share, it
      therefore scores exactly like "C". */
  lemma UnlistedScopeMixesEquations(m: Metrics)
    requires m.s !in ScopeNames
    requires Known(m)
    ensures CalculateBaseScore(m).value.exploitabilityScore
            == CalculateBaseScore(m.(s := "U")).value.exploitabilityScore
    ensures CalculateBaseScore(m).value.impactScore
            == CalculateBaseScore(m.(s := "C")).value.impactScore
    ensures m.pr == "N" ==> CalculateBaseScore(m) == CalculateBaseScore(m.(s := "C"))
  {
    var w := LookupWeights(m).value;
    var wc := w.(pr := PrivilegesRequiredChanged[m.pr]);
    CalculateIsScore(m);
    CalculateIsScore(m.(s := "U"));
    CalculateIsScore(m.(s := "C"));
    LookupUnderScope(m, "U");
    LookupUnderScope(m, "C");
    ScoreUnderScope(w, m.s);
    ImpactIgnoresPrivileges(w, wc.pr, "C");
    if m.pr == "N" {
      assert w == wc;
    }
  }

  /** A successful calculation is the arithmetic applied to the looked-up weights. */
  lemma CalculateIsScore(m: Metrics)
    requires Known(m)
    ensures CalculateBaseScore(m) == Success(Score(LookupWeights(m).value, m.s))
  {
  }

  /** Changing the scope code changes only the Privileges Required weight
      among the looked-up weights. */
  lemma LookupUnderScope(m: Metrics, s: string)
    requires Known(m)
    ensures LookupWeights(m.(s := s))
            == Success(LookupWeights(m).value.(pr := PrivilegesTable(s)[m.pr]))
  {
  }

  /** The arithmetic tells scope codes apart only by whether they are "U". */
  lemma ScoreUnderScope(w: MetricWeights, s: string)
    requires InRange(w) && s != "U"
    ensures Score(w, s) == Score(w, "C")
  {
    assert Impact(Iss(w), s) == Impact(Iss(w), "C");
    assert Unrounded(Impact(Iss(w), s), Exploitability(w), s)
        == Unrounded(Impact(Iss(w), s), Exploitability(w), "C");
  }

  /** PR:L weighs 0.62 under scope "U" and 0.68 under scope "C", so the
      exploitability sub-score of AV:N/AC:L/PR:L/UI:N is 2.8 and 3.1. */
  lemma PrivilegesFollowScope()
    ensures CalculateBaseScore(Metrics("N", "L", "L", "N", "U", "H", "H", "H")).value.exploitabilityScore == 2.8
    ensures CalculateBaseScore(Metrics("N", "L", "L", "N", "C", "H", "H", "H")).value.exploitabilityScore == 3.1
  {
    var wu := MetricWeights(0.85, 0.77, 0.85, 0.62, 0.56, 0.56, 0.56);
    var wc := MetricWeights(0.85, 0.77, 0.85, 0.68, 0.56, 0.56, 0.56);
    assert LookupWeights(Metrics("N", "L", "L", "N", "U", "H", "H", "H")) == Success(wu);
    assert LookupWeights(Metrics("N", "L", "L", "N", "C", "H", "H", "H")) == Success(wc);
    assert Exploitability(wu) == 2.83525473;
    assert Exploitability(wc) == 3.10963422;
    RoundHalfEvenIsNearest(2.83525473, 2.8);
    RoundHalfEvenIsNearest(3.10963422, 3.1);
  }

  /** The impact sub-score depends on C, I, A and on whether the scope is
      "U", not on the Privileges Required weight. */
  lemma ImpactIgnoresPrivileges(w: MetricWeights, pr: real, s: string)
    requires InRange(w) && 0.0 < pr <= 1.0
    ensures Score(w, s).impactScore == Score(w.(pr := pr), s).impactScore
  {
    assert Iss(w) == Iss(w.(pr := pr));
  }
}
