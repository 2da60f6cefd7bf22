/** The validation rules of value_objects.go and the one mutator there,
    `ResponsibilityMatrix.AddEntry`. */
module ValueObjects {
  import opened Wrappers
  import opened DomainTypes

  /** `RACIEntry.Validate`: activity, responsible and accountable party are
      required, in that order; consulted and informed may be empty. */
  function ValidateRACIEntry(e: RACIEntry): (r: Outcome)
    ensures r.Pass? <==> e.activity != "" && e.responsible != "" && e.accountable != ""
    ensures e.activity == "" ==> r == Fail(ValidationError("activity cannot be empty"))
    ensures e.activity != "" && e.responsible == "" ==>
              r == Fail(ValidationError("responsible party cannot be empty"))
    ensures e.activity != "" && e.responsible != "" && e.accountable == "" ==>
              r == Fail(ValidationError("accountable party cannot be empty"))
  {
    if e.activity == "" then Fail(ValidationError("activity cannot be empty"))
    else if e.responsible == "" then Fail(ValidationError("responsible party cannot be empty"))
    else if e.accountable == "" then Fail(ValidationError("accountable party cannot be empty"))
    else Pass
  }

  /** Every entry of the matrix would pass validation. */
  predicate AllEntriesValid(m: ResponsibilityMatrix)
  {
    forall i :: 0 <= i < |m.entries| ==> ValidateRACIEntry(m.entries[i]).Pass?
  }

  /** `ResponsibilityMatrix.AddEntry`: append a valid entry; an invalid one
      leaves the matrix as it was. The result pairs the new matrix with the
      error the method returns. */
  function AddEntry(m: ResponsibilityMatrix, e: RACIEntry): (r: (ResponsibilityMatrix, Outcome))
    ensures r.1 == ValidateRACIEntry(e)
    ensures r.1.Pass? ==> r.0.entries == m.entries + [e]
    ensures r.1.Fail? ==> r.0 == m
  {
    var v := ValidateRACIEntry(e);
    if v.Fail? then (m, v) else (m.(entries := m.entries + [e]), Pass)
  }

  /** A matrix built only through `AddEntry` holds valid entries only. */
  lemma AddEntryKeepsEntriesValid(m: ResponsibilityMatrix, e: RACIEntry)
    requires AllEntriesValid(m)
    ensures AllEntriesValid(AddEntry(m, e).0)
  {
    var m' := AddEntry(m, e).0;
    if ValidateRACIEntry(e).Pass? {
      forall i | 0 <= i < |m'.entries| ensures ValidateRACIEntry(m'.entries[i]).Pass? {
        if i < |m.entries| { assert m'.entries[i] == m.entries[i]; }
      }
    }
  }

  /** Adding a sequence of entries one by one, ignoring refusals. */
  function AddEntries(m: ResponsibilityMatrix, es: seq<RACIEntry>): ResponsibilityMatrix
    decreases |es|
  {
    if es == [] then m else AddEntries(AddEntry(m, es[0]).0, es[1..])
  }

  /** Whatever is offered, starting from a matrix of valid entries (the
      empty one in particular), the matrix only ever holds valid entries. */
  lemma {:induction false} AddEntriesKeepsEntriesValid(m: ResponsibilityMatrix, es: seq<RACIEntry>)
    requires AllEntriesValid(m)
    ensures AllEntriesValid(AddEntries(m, es))
    decreases |es|
  {
    if es != [] {
      AddEntryKeepsEntriesValid(m, es[0]);
      AddEntriesKeepsEntriesValid(AddEntry(m, es[0]).0, es[1..]);
    }
  }

  /** `KPI.Validate`: an ID and a name are required. */
  function ValidateKPI(k: KPI): (r: Outcome)
    ensures r.Pass? <==> k.id != "" && k.name != ""
    ensures k.id == "" ==> r == Fail(ValidationError("KPI ID cannot be empty"))
    ensures k.id != "" && k.name == "" ==> r == Fail(ValidationError("KPI name cannot be empty"))
  {
    if k.id == "" then Fail(ValidationError("KPI ID cannot be empty"))
    else if k.name == "" then Fail(ValidationError("KPI name cannot be empty"))
    else Pass
  }
}
