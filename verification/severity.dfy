/** The qualitative severity rating scale (section 5 of the FIRST CVSS v3.1
    Specification) as the calculator applies it to a base score. */
module Severity {
  import opened Rounding

  /** The labels the rating returns; `Unknown` is the fall-through for a
      score outside every band. */
  datatype Label = None | Low | Medium | High | Critical | Unknown {

    /** The label's text in the response: one of the five names of the
        qualitative scale for a real rating, something else for Unknown. */
    function Name(): (r: string)
      ensures this != Unknown <==> r in ScaleNames
    {
      match this
      case None => "None"
      case Low => "Low"
      case Medium => "Medium"
      case High => "High"
      case Critical => "Critical"
      case Unknown => "Unknown"
    }
  }

  /** The names of the qualitative severity scale. */
  const ScaleNames: set<string> := {"None", "Low", "Medium", "High", "Critical"}

  /** Distinct labels have distinct texts, so the response names the rating. */
  lemma NamesDistinct(l: Label, l': Label)
    requires l.Name() == l'.Name()
    ensures l == l'
  {
  }

  /** The rating of a score, checked band by band against inclusive
      one-decimal bounds, exactly in the calculator's order. */
  function Rating(score: real): (r: Label)
    ensures r != Unknown ==> 0.0 <= score <= 10.0
    ensures r == None <==> score == 0.0
  {
    if score == 0.0 then None
    else if 0.1 <= score <= 3.9 then Low
    else if 4.0 <= score <= 6.9 then Medium
    else if 7.0 <= score <= 8.9 then High
    else if 9.0 <= score <= 10.0 then Critical
    else Unknown
  }

  /** The rating scale stated on whole tenths: 0 is None, 1..39 Low,
      40..69 Medium, 70..89 High and 90..100 Critical. */
  function Band(tenths: int): Label
    requires 0 <= tenths <= 100
  {
    if tenths == 0 then None
    else if tenths < 40 then Low
    else if tenths < 70 then Medium
    else if tenths < 90 then High
    else Critical
  }

  /** On every multiple of 0.1 in [0.0, 10.0] the rating agrees with the
      scale on tenths, so it is never Unknown there. */
  lemma RatingOfTenths(tenths: int)
    requires 0 <= tenths <= 100
    ensures Rating(tenths as real / 10.0) == Band(tenths)
    ensures Rating(tenths as real / 10.0) != Unknown
  {
  }

  /** Every possible base score (a multiple of 0.1 in [0.0, 10.0]) receives
      exactly one of the five real labels. */
  lemma RatingTotalOnScores(score: real)
    requires IsTenth(score) && 0.0 <= score <= 10.0
    ensures Rating(score) in {None, Low, Medium, High, Critical}
    ensures Rating(score) == Band((score * 10.0).Floor)
  {
    var k := (score * 10.0).Floor;
    assert k as real / 10.0 == score;
    RatingOfTenths(k);
  }

  /** The band edges. */
  lemma RatingBandEdges()
    ensures Rating(0.0) == None && Rating(0.1) == Low
    ensures Rating(3.9) == Low && Rating(4.0) == Medium
    ensures Rating(6.9) == Medium && Rating(7.0) == High
    ensures Rating(8.9) == High && Rating(9.0) == Critical
    ensures Rating(10.0) == Critical
    ensures Rating(0.0).Name() == "None" && Rating(0.1).Name() == "Low"
    ensures Rating(3.9).Name() == "Low" && Rating(4.0).Name() == "Medium"
    ensures Rating(6.9).Name() == "Medium" && Rating(7.0).Name() == "High"
    ensures Rating(8.9).Name() == "High" && Rating(9.0).Name() == "Critical"
    ensures Rating(10.0).Name() == "Critical" && Rating(10.1).Name() == "Unknown"
  {
  }

  /** Between two bands, and outside [0.0, 10.0], the rating falls through
      to Unknown; no base score lands there. */
  lemma RatingGaps()
    ensures Rating(0.05) == Unknown && Rating(3.95) == Unknown
    ensures Rating(6.95) == Unknown && Rating(8.95) == Unknown
    ensures Rating(-0.1) == Unknown && Rating(10.1) == Unknown
  {
  }
}
