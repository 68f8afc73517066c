# CVSS v3.1 base-score calculator, modelled in Dafny

This project models the scoring core of a small web service. The service computes a
CVSS v3.1 Base Score from eight one-letter metric codes: Attack Vector, Attack
Complexity, Privileges Required, User Interaction, Scope, Confidentiality, Integrity and
Availability. It returns a record with five fields:

- the base score, rounded up to one decimal;
- the impact sub-score, rounded to one decimal;
- the exploitability sub-score, rounded to one decimal;
- a severity label;
- a `CVSS:3.1/...` vector string.

The service follows these sections of the FIRST CVSS v3.1 Specification:

- the Base Metrics equations in section 7.1;
- the weights in section 7.4;
- the qualitative severity scale in section 5;
- the vector-string layout in section 6.

Modules, one per concern of `app.py`:

- `Weights` (weights.dfy): the calculator's six weight tables are kept as `map<string, real>` and its scope-name table as a `map<string, string>`, exactly like its dictionaries. A lookup either yields the weight or fails with `KeyError(key)`. The Privileges Required table is chosen by scope: "C" selects the changed table and every other string selects the unchanged one.
- `Rounding` (rounding.dfy) covers three pieces:
  - `Pow`, the `pow(x, 15)` of the changed-scope impact;
  - `RoundUp`, which is `math.ceil(x * 10) / 10`;
  - `RoundHalfEven`, which is `round(x, 1)`.

  It also holds the sign and size lemmas about `Pow`, and the power-difference lemmas that the monotonicity proof uses.
- `Severity` (severity.dfy): `get_severity_rating`, with its `Unknown` fall-through. `Band` is a reference definition of the scale on whole tenths.
- `Calculator` (calculator.dfy): `calculate_base_score`. It splits into `LookupWeights` (the seven lookups in source order) and `Score` (the equations on the looked-up weights).
- `Properties` (properties.dfy) covers:
  - which unknown code is reported;
  - the worked examples;
  - the no-impact case;
  - how the scope code, which is never validated, steers the equations.
- `Monotonicity` (monotonicity.dfy): raising C, I or A never lowers the base score, under every scope code.
- `Handler` (handler.dfy): the pure part of the `/calculate` handler. It holds the presence check, the call into the calculator, the vector string, and a parser `ParseVector` that reverses the vector string.

Numbers are Dafny `real`, that is, exact rationals. Every constant in the source is a short
decimal, so the equations are evaluated exactly rather than in IEEE-754 doubles.

Behaviour of the code worth knowing:

- The scope code is never validated. The `scope` table (`app.py:40-43`) is never read. Any string other than "U" or "C" is accepted: it gets the unchanged Privileges Required table and the changed-scope impact and base equations.
- An unknown code raises a plain `KeyError` that carries the code and not the metric's name. The handler turns it into a generic 500 response.
- AV:N/AC:L/PR:N/UI:N/C:H/I:H/A:H scores 9.8 under S:U and 10.0 under every other scope code.
- With C=I=A=N, the impact sub-score is 0.0 only under S:U. Every other scope gives -0.2.

## Model

| member | source | states |
|---|---|---|
| Weights.Lookup | app.py:67-80 | a dictionary lookup succeeds exactly when the key is in the table, yields its entry, and otherwise fails with a KeyError carrying the key |
| Weights.PrivilegesTable | app.py:72-75 | whichever scope is given, the selected table accepts exactly N, L and H and weighs N at 0.85; "C" gets the changed table and any other scope the unchanged one |
| Weights.PrivilegesTablesAgreeOnNone | app.py:23-33 | the two Privileges Required tables have the same keys, share the weight 0.85 for N, and the changed table weighs L and H more |
| Weights.ImpactWeightsOrdered | app.py:45-49 | every impact weight is 0.0, 0.22 or 0.56, and N < L < H by weight |
| Rounding.Ceil | app.py:104 | `math.ceil`: the result is the integer r with x <= r < x + 1 |
| Rounding.RoundUp | app.py:104 | the result is a multiple of 0.1, never below x and less than 0.1 above it; a multiple of 0.1 is returned unchanged |
| Rounding.RoundUpIsLeast | app.py:104 | the result is the least multiple of 0.1 at or above x |
| Rounding.RoundUpMonotone | app.py:104 | rounding up preserves the order of two scores |
| Rounding.RoundHalfEven | app.py:108-109 | the result is a multiple of 0.1 within 0.05 of x, and on an exact tie its tenths count is even |
| Rounding.RoundHalfEvenIsNearest | app.py:108-109 | any multiple of 0.1 strictly within 0.05 of x is the rounded value, so the rounding is the nearest tenth |
| Rounding.PowSign | app.py:89 | the `pow` of the changed-scope impact: even powers and powers of a non-negative base are non-negative, odd powers of a non-positive base are non-positive |
| Rounding.PowShrinks | app.py:89 | on [-1, 1] a positive power stays in [-1, 1], lies below x for x >= 0 and above x for x <= 0 and odd n |
| Rounding.PowDifferenceFactors | app.py:89 | y^n - x^n factors as (y - x) times the geometric cofactor sum |
| Rounding.GeomSumBound | app.py:89 | on [-m, m] the cofactor is bounded by its value at (m, m) |
| Rounding.PowBound | app.py:89 | \|a\| <= m bounds \|a^n\| by m^n |
| Severity.Label.Name | app.py:115-126 | the five rated labels print as the five names of the scale (None, Low, Medium, High, Critical), and Unknown prints as none of them |
| Severity.NamesDistinct | app.py:115-126 | distinct labels print distinct names |
| Severity.Rating | app.py:113-126 | the label is None exactly for 0.0, and any label other than Unknown implies a score in [0.0, 10.0] |
| Severity.RatingOfTenths | app.py:113-126 | on k/10 for 0 <= k <= 100 the rating equals the tenths scale (0 None, 1-39 Low, 40-69 Medium, 70-89 High, 90-100 Critical), never Unknown |
| Severity.RatingTotalOnScores | app.py:113-126 | every multiple of 0.1 in [0.0, 10.0] gets exactly one of the five real labels |
| Severity.RatingBandEdges | app.py:115-126 | 0.0 None, 0.1 and 3.9 Low, 4.0 and 6.9 Medium, 7.0 and 8.9 High, 9.0 and 10.0 Critical, both as labels and as the printed names, and 10.1 prints "Unknown" |
| Severity.RatingGaps | app.py:117-126 | scores between bands (0.05, 3.95, 6.95, 8.95) or outside [0, 10] fall through to Unknown |
| Calculator.LookupWeights | app.py:67-80 | the lookups succeed exactly when every code but scope is a key of its table; each weight is its code's table entry, with pr taken from the scope-selected table |
| Calculator.Iss | app.py:83 | the ISS is 0 exactly when C, I and A are all None, at least 0.22 otherwise, and at most 0.914816 |
| Calculator.ImpactFactors | app.py:83 | the product of the three 1 - weight factors is 1 only without impact, otherwise at most 0.78, and never below 0.085184 |
| Calculator.ChangedImpact | app.py:89 | the changed-scope impact equation is negative for ISS below 0.029 and positive for ISS in [0.036, 1] |
| Calculator.Impact | app.py:85-89 | under every scope the impact is positive once ISS reaches 0.036; at ISS 0 it is 0 under "U" and negative under any other scope; under "U" it is positive exactly when the ISS is |
| Calculator.Exploitability | app.py:92 | on table weights the exploitability is positive and at most 8.22 |
| Calculator.Unrounded | app.py:95-101 | with non-negative exploitability the pre-rounding base score lies in [0, 10], and it is 0 exactly when the impact is not positive |
| Calculator.Score | app.py:83-111 | the result is well formed: base in [0, 10] and a multiple of 0.1, at or above the unrounded score and less than 0.1 above it; sub-scores within 0.05 of the impact and exploitability equations; the severity is the base score's rating and never Unknown |
| Calculator.CalculateBaseScore | app.py:51-111 | the calculator succeeds exactly when every looked-up code is in its table, every result is well formed, and a failure names one of the input codes |
| Properties.UnknownCodeRaisesKeyError | app.py:67-80 | the calculator fails exactly when some code is missing from its table, and the error carries the first such code in lookup order av, ac, ui, pr, c, i, a |
| Properties.NetworkFullImpactUnchanged | app.py:83-110 | AV:N/AC:L/PR:N/UI:N/S:U/C:H/I:H/A:H gives base 9.8, impact 5.9, exploitability 3.9, Critical |
| Properties.NetworkFullImpactChanged | app.py:86-104 | the same vector with S:C reaches the cap and gives base 10.0, impact 6.0, exploitability 3.9, Critical |
| Properties.NetworkFullImpactOtherScopes | app.py:72-104 | the same vector scores 10.0 / 6.0 / 3.9 Critical under every scope code other than "U", whether listed or not |
| Properties.BaseScoreZeroIffNoImpact | app.py:83-110 | for every accepted input the base score is 0.0, and the severity None, exactly when C, I and A are all N |
| Properties.SomeImpactScore | app.py:83-104 | on looked-up weights with any impact, the base score is above 0 |
| Properties.ExploitabilityRange | app.py:67-109 | every accepted input has exploitability in [0.121090464, 3.887042775] and an exploitability sub-score in [0.1, 3.9] |
| Properties.ExploitabilityBounds | app.py:92 | over the table weight ranges the exploitability lies in [0.121090464, 3.887042775] |
| Properties.RoundedBetween | app.py:108-109 | a value between two tenths rounds to a tenth between them |
| Properties.NoImpactScoresZero | app.py:83-110 | with C=I=A=N the base score is 0.0 rated None; the impact sub-score is 0.0 under S:U and -0.2 under every other scope |
| Properties.ScopeNeverRejected | app.py:72-75 | whether the calculator succeeds does not depend on the scope code |
| Properties.UnlistedScopeMixesEquations | app.py:72-101 | a scope code other than U and C shares U's exploitability sub-score and C's impact sub-score, and with PR:N it scores exactly like C |
| Properties.PrivilegesFollowScope | app.py:72-75 | PR:L gives exploitability 2.8 under S:U (weight 0.62) and 3.1 under S:C (weight 0.68) |
| Properties.ScoreUnderScope | app.py:86-101 | the equations distinguish scope codes only by whether they are "U" |
| Properties.ImpactIgnoresPrivileges | app.py:83-89 | the impact sub-score does not depend on the Privileges Required weight |
| Monotonicity.IssMonotone | app.py:83 | the ISS is non-negative and grows with each of the C, I and A weights |
| Monotonicity.IssAboveOnlyAllHigh | app.py:83 | only C:H/I:H/A:H gives an ISS above 0.85 (0.914816); every other combination gives at most 0.848992 |
| Monotonicity.ChangedImpactMonotone | app.py:89 | the changed-scope impact equation is non-decreasing on ISS in [0, 0.85] |
| Monotonicity.ChangedImpactTopStep | app.py:89 | the changed-scope impact at ISS 0.914816 is still above its value at 0.848992 |
| Monotonicity.ImpactMonotone | app.py:83-89 | under every scope code the impact grows with each of the C, I and A weights |
| Monotonicity.UnroundedMonotone | app.py:95-101 | the pre-rounding base score grows with the impact |
| Monotonicity.ScoreMonotoneInImpact | app.py:83-104 | on looked-up weights, raising C, I or A never lowers the base score |
| Monotonicity.BaseScoreMonotoneInImpact | app.py:51-104 | raising any of C, I and A along N, L, H keeps the input accepted and never lowers the base score |
| Handler.AllPresent | app.py:150-151 | the presence check holds exactly when every one of the eight required parameters is present; an empty string counts as present |
| Handler.VectorString | app.py:158 | the vector string opens with "CVSS:3.1/" and, with one-character codes, is 43 characters plus the scope code |
| Handler.Calculate | app.py:150-164 | 400 with "Missing required CVSS parameters" exactly when a field is absent; otherwise 500 exactly when the calculator raised, carrying its error; a 200 carries the calculator's well-formed result and a vector string that parses back to the eight inputs |
| Handler.AcceptedInputsAreVectorShaped | app.py:67-80 | every input the calculator accepts has one-character codes in all positions except scope |
| Handler.ParseVectorString | app.py:158 | the vector string of such an input parses back to exactly that input |
| Handler.ParsedVectorRebuilds | app.py:158 | a string that parses is exactly the vector string of the parsed input, so the vector string is a bijection on accepted inputs |
| Handler.EmptyCodeIsServerError | app.py:150-155 | an empty string passes the presence check and then fails the lookup, so it ends in 500 and not 400 |

## Left out

- The Flask application, its routes, CORS, `render_template`, `/health` and `jsonify` (app.py:1-6, 128-133, 161, 166-171). These are I/O glue. Only the presence check, the call into the calculator and the vector string are modelled, in `Handler.Calculate`.
- JSON body extraction (app.py:137-147). Field values are modelled as strings, and `None` stands for an absent or null field. Non-string JSON values such as numbers, booleans, arrays or objects are not modelled. Neither is a body that is not a JSON object.
- Calculator.CalculateBaseScore: the arithmetic is exact. The source computes in IEEE-754 doubles, and `math.ceil(x * 10) / 10` can over-round there when a product lands just above a tenth (for example 4.000000000000001). The model follows the exact mathematical ceiling, which is what the Roundup function in Appendix A of the FIRST CVSS v3.1 Specification intends.
- Rounding.RoundHalfEven: this is round-half-to-even on exact reals. Python's `round(x, 1)` decides ties on the binary value of the float, so an input that is exactly a tie here may round the other way in CPython.
- The text of the 500 response. It is `str(e)` of a library exception, which is not modelled. The model keeps the `KeyError` and the key it carries.
- The `self.scope` table (app.py:40-43) is modelled as `Weights.ScopeNames`, but it has no operation because the calculator never reads it.
