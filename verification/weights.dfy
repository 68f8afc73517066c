/** The weight tables of the CVSS v3.1 base metrics (section 7.4 of the FIRST
    CVSS v3.1 Specification), kept as string-keyed maps exactly like the
    calculator's dictionaries, and the dictionary lookup that fails on a key
    the table does not hold. */
module Weights {
  import opened Wrappers

  /** The error a dictionary lookup raises for a missing key; it carries the key. */
  datatype KeyError = KeyError(key: string)

  type Table = map<string, real>

  const AttackVector: Table := map["N" := 0.85, "A" := 0.62, "L" := 0.55, "P" := 0.2]

  const AttackComplexity: Table := map["L" := 0.77, "H" := 0.44]

  /** Privileges Required when the scope is unchanged. */
  const PrivilegesRequired: Table := map["N" := 0.85, "L" := 0.62, "H" := 0.27]

  /** Privileges Required when the scope is changed. */
  const PrivilegesRequiredChanged: Table := map["N" := 0.85, "L" := 0.68, "H" := 0.5]

  const UserInteraction: Table := map["N" := 0.85, "R" := 0.62]

  /** The scope names. The calculator declares this table but never reads it,
      so no scope code is ever checked against it. */
  const ScopeNames: map<string, string> := map["U" := "Unchanged", "C" := "Changed"]

  /** Shared by Confidentiality, Integrity and Availability. */
  const ImpactMetrics: Table := map["N" := 0.0, "L" := 0.22, "H" := 0.56]

  /** `table[key]`: the weight, or the error naming the missing key. */
  function Lookup(table: Table, key: string): (r: Result<real, KeyError>)
    ensures r.Success? <==> key in table
    ensures r.Success? ==> r.value == table[key]
    ensures r.Failure? ==> r.error.key == key
  {
    if key in table then Success(table[key]) else Failure(KeyError(key))
  }

  /** The Privileges Required table selected by the scope code: the changed
      table for "C", the unchanged table for every other string. */
  function PrivilegesTable(s: string): (t: Table)
    ensures t.Keys == {"N", "L", "H"}
    ensures t["N"] == 0.85
    ensures s == "C" ==> t == PrivilegesRequiredChanged
    ensures s != "C" ==> t == PrivilegesRequired
  {
    if s == "C" then PrivilegesRequiredChanged else PrivilegesRequired
  }

  /** The three weights an impact metric can take. */
  predicate IsImpactWeight(w: real) {
    w == 0.0 || w == 0.22 || w == 0.56
  }

  /** Every impact weight is one of None/Low/High's, and the codes are ordered
      N < L < H by weight. */
  lemma ImpactWeightsOrdered(code: string)
    requires code in ImpactMetrics
    ensures IsImpactWeight(ImpactMetrics[code])
    ensures ImpactMetrics["N"] < ImpactMetrics["L"] < ImpactMetrics["H"]
  {
  }

  /** Both Privileges Required tables accept the same codes, agree on N, and
      the changed table weighs L and H more heavily. */
  lemma PrivilegesTablesAgreeOnNone()
    ensures PrivilegesRequired.Keys == PrivilegesRequiredChanged.Keys
    ensures PrivilegesRequired["N"] == PrivilegesRequiredChanged["N"] == 0.85
    ensures PrivilegesRequired["L"] < PrivilegesRequiredChanged["L"]
    ensures PrivilegesRequired["H"] < PrivilegesRequiredChanged["H"]
  {
  }
}
