/** The pure part of the `/calculate` request handler: the presence check on
    the eight fields, the call into the calculator, and the CVSS v3.1 vector
    string (section 6 of the FIRST CVSS v3.1 Specification) attached to a
    successful result. */
module Handler {
  import opened Wrappers
  import opened Weights
  import Calculator

  /** The eight request fields; `None` is a field that is absent or null. */
  datatype Request = Request(av: Option<string>, ac: Option<string>, pr: Option<string>,
                             ui: Option<string>, s: Option<string>, c: Option<string>,
                             i: Option<string>, a: Option<string>)

  /** The handler's three outcomes: 200 with the result and vector string,
      400 for a missing field, 500 for an error raised while scoring. */
  datatype Response =
    | Scored(result: Calculator.ScoreResult, vectorString: string)
    | BadRequest(message: string)
    | ServerError(error: KeyError)
  {
    function Status(): int {
      match this
      case Scored(_, _) => 200
      case BadRequest(_) => 400
      case ServerError(_) => 500
    }
  }

  const MissingParameters := "Missing required CVSS parameters"

  /** The required parameters in the handler's order. */
  function RequiredParams(req: Request): seq<Option<string>> {
    [req.av, req.ac, req.pr, req.ui, req.s, req.c, req.i, req.a]
  }

  /** No field is absent; an empty string counts as present. Every one of
      the required parameters is present. */
  function AllPresent(req: Request): (b: bool)
    ensures b <==> forall k :: 0 <= k < |RequiredParams(req)| ==> RequiredParams(req)[k].Some?
  {
    var ps := RequiredParams(req);
    assert ps[0] == req.av && ps[1] == req.ac && ps[2] == req.pr && ps[3] == req.ui;
    assert ps[4] == req.s && ps[5] == req.c && ps[6] == req.i && ps[7] == req.a;
    && req.av.Some? && req.ac.Some? && req.pr.Some? && req.ui.Some?
    && req.s.Some? && req.c.Some? && req.i.Some? && req.a.Some?
  }

  function Fields(req: Request): Calculator.Metrics
    requires AllPresent(req)
  {
    Calculator.Metrics(req.av.value, req.ac.value, req.pr.value, req.ui.value,
                       req.s.value, req.c.value, req.i.value, req.a.value)
  }

  /** The vector string, built from the raw codes in fixed order. It opens
      with the version prefix, and with one-character codes it is 43
      characters plus the scope code. */
  function VectorString(m: Calculator.Metrics): (r: string)
    ensures |r| >= 9 && r[..9] == "CVSS:3.1/"
    ensures VectorShaped(m) ==> |r| == 43 + |m.s|
  {
    "CVSS:3.1/AV:" + m.av + "/AC:" + m.ac + "/PR:" + m.pr + "/UI:" + m.ui
    + "/S:" + m.s + "/C:" + m.c + "/I:" + m.i + "/A:" + m.a
  }

  /** Single-character codes in every position except scope, whose length is
      free. Every input the calculator accepts has this shape. */
  predicate VectorShaped(m: Calculator.Metrics) {
    |m.av| == 1 && |m.ac| == 1 && |m.pr| == 1 && |m.ui| == 1
    && |m.c| == 1 && |m.i| == 1 && |m.a| == 1
  }

  /** The 31 characters before the scope code: labels and the first four codes. */
  function Head(m: Calculator.Metrics): string {
    "CVSS:3.1/AV:" + m.av + "/AC:" + m.ac + "/PR:" + m.pr + "/UI:" + m.ui + "/S:"
  }

  /** The 12 characters after the scope code: labels and the impact codes. */
  function Tail(m: Calculator.Metrics): string {
    "/C:" + m.c + "/I:" + m.i + "/A:" + m.a
  }

  /** The labels of the head are in place. */
  predicate HeadLabels(h: string)
    requires |h| == 31
  {
    h[..12] == "CVSS:3.1/AV:" && h[13..17] == "/AC:" && h[18..22] == "/PR:"
    && h[23..27] == "/UI:" && h[28..] == "/S:"
  }

  /** The labels of the tail are in place. */
  predicate TailLabels(t: string)
    requires |t| == 12
  {
    t[..3] == "/C:" && t[4..7] == "/I:" && t[8..11] == "/A:"
  }

  /** Reads a vector string back: fixed-width labels around one-character
      codes, with the scope code taking whatever lies between "/S:" and the
      last twelve characters. */
  function ParseVector(v: string): Option<Calculator.Metrics> {
    if |v| < 43 then None
    else
      var h, t := v[..31], v[|v| - 12..];
      if HeadLabels(h) && TailLabels(t)
      then Some(Calculator.Metrics([h[12]], [h[17]], [h[22]], [h[27]], v[31..|v| - 12],
                                   [t[3]], [t[7]], [t[11]]))
      else None
  }

  /** Every code the calculator accepts is one character long, so every
      scored input is vector-shaped. */
  lemma AcceptedInputsAreVectorShaped(m: Calculator.Metrics)
    requires Calculator.Known(m)
    ensures VectorShaped(m)
  {
  }

  /** The vector string is head, scope code, tail. */
  lemma VectorStringSplits(m: Calculator.Metrics)
    ensures VectorString(m) == Head(m) + m.s + Tail(m)
  {
  }

  /** The head of a vector-shaped input has its labels in place and its codes
      at offsets 12, 17, 22 and 27. */
  lemma HeadReads(m: Calculator.Metrics)
    requires VectorShaped(m)
    ensures |Head(m)| == 31 && HeadLabels(Head(m))
    ensures [Head(m)[12]] == m.av && [Head(m)[17]] == m.ac
    ensures [Head(m)[22]] == m.pr && [Head(m)[27]] == m.ui
  {
  }

  /** The tail of a vector-shaped input has its labels in place and its codes
      at offsets 3, 7 and 11. */
  lemma TailReads(m: Calculator.Metrics)
    requires VectorShaped(m)
    ensures |Tail(m)| == 12 && TailLabels(Tail(m))
    ensures [Tail(m)[3]] == m.c && [Tail(m)[7]] == m.i && [Tail(m)[11]] == m.a
  {
  }

  /** The three parts of h + s + t, recovered by position. */
  lemma ConcatParts(h: string, s: string, t: string)
    requires |h| == 31 && |t| == 12
    ensures var v := h + s + t; v[..31] == h && v[31..|v| - 12] == s && v[|v| - 12..] == t
  {
  }

  /** The vector string of a vector-shaped input reads back as that input. */
  lemma ParseVectorString(m: Calculator.Metrics)
    requires VectorShaped(m)
    ensures ParseVector(VectorString(m)) == Some(m)
  {
    VectorStringSplits(m);
    HeadReads(m);
    TailReads(m);
    ConcatParts(Head(m), m.s, Tail(m));
  }

  /** A head with its labels in place is the head of the codes it carries. */
  lemma HeadRebuilds(h: string, m: Calculator.Metrics)
    requires |h| == 31 && HeadLabels(h)
    requires m.av == [h[12]] && m.ac == [h[17]] && m.pr == [h[22]] && m.ui == [h[27]]
    ensures Head(m) == h
  {
  }

  /** A tail with its labels in place is the tail of the codes it carries. */
  lemma TailRebuilds(t: string, m: Calculator.Metrics)
    requires |t| == 12 && TailLabels(t)
    requires m.c == [t[3]] && m.i == [t[7]] && m.a == [t[11]]
    ensures Tail(m) == t
  {
  }

  /** A string that parses is exactly the vector string of what it parses to. */
  lemma ParsedVectorRebuilds(v: string)
    requires ParseVector(v).Some?
    ensures VectorShaped(ParseVector(v).value)
    ensures VectorString(ParseVector(v).value) == v
  {
    var m := ParseVector(v).value;
    var h, t := v[..31], v[|v| - 12..];
    HeadRebuilds(h, m);
    TailRebuilds(t, m);
    VectorStringSplits(m);
    assert v == h + v[31..|v| - 12] + t;
  }

  /** The `/calculate` handler on already-extracted fields: 400 when a field
      is missing, otherwise the calculator's result with the vector string
      attached, or 500 with the error it raised. */
  function Calculate(req: Request): (r: Response)
    ensures r.BadRequest? <==> !AllPresent(req)
    ensures r.BadRequest? ==> r.Status() == 400 && r.message == MissingParameters
    ensures r.ServerError? <==> AllPresent(req) && !Calculator.Known(Fields(req))
    ensures r.ServerError? ==> Calculator.CalculateBaseScore(Fields(req)) == Failure(r.error)
    ensures r.Scored? ==> Calculator.CalculateBaseScore(Fields(req)) == Success(r.result)
    ensures r.Scored? ==> Calculator.WellFormed(r.result)
    ensures r.Scored? ==> ParseVector(r.vectorString) == Some(Fields(req))
  {
    if !AllPresent(req) then BadRequest(MissingParameters)
    else
      var m := Fields(req);
      match Calculator.CalculateBaseScore(m)
      case Failure(e) => ServerError(e)
      case Success(result) =>
        AcceptedInputsAreVectorShaped(m);
        ParseVectorString(m);
        Scored(result, VectorString(m))
  }

  /** An empty string passes the presence check but is no table's key, so it
      ends in a 500, not a 400. */
  lemma EmptyCodeIsServerError(req: Request)
    requires AllPresent(req) && req.av == Some("")
    ensures Calculate(req) == ServerError(KeyError(""))
  {
  }
}
