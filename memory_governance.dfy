/** The in-memory governance agreement repository (infrastructure/memory/
    governance_repository.go): agreements by ID plus an index from
    application ID to agreement ID that `Save` writes and `Update` does not. */
module MemoryGovernance {
  import opened Wrappers
  import opened DomainTypes

  /** What `FindByApplicationID` answers for a given pair of maps: follow the
      index, then the agreement table; the two misses have distinct messages. */
  function ResolveByApplication(agreements: map<GovernanceAgreementID, GovernanceAgreement>,
                                byApplication: map<ApplicationID, GovernanceAgreementID>,
                                appID: ApplicationID): (r: Result<GovernanceAgreement>)
    ensures r.Ok? <==> appID in byApplication && byApplication[appID] in agreements
    ensures r.Ok? ==> r.value == agreements[byApplication[appID]]
    ensures appID !in byApplication ==> r == Err(NotFound("governance agreement not found for application"))
    ensures appID in byApplication && byApplication[appID] !in agreements ==>
              r == Err(NotFound("governance agreement not found"))
  {
    if appID !in byApplication then Err(NotFound("governance agreement not found for application"))
    else if byApplication[appID] !in agreements then Err(NotFound("governance agreement not found"))
    else Ok(agreements[byApplication[appID]])
  }

  /** Saving an agreement a second time under a new application ID leaves
      the old index entry behind: looking up the old application still finds
      the agreement, although it now names a different application. */
  lemma StaleIndexAfterReassignment(g: GovernanceAgreement, newApp: ApplicationID)
    requires newApp != g.applicationID
    ensures var g2 := g.(applicationID := newApp);
            var agreements := map[g.id := g][g.id := g2];
            var byApplication := map[g.applicationID := g.id][newApp := g.id];
            ResolveByApplication(agreements, byApplication, g.applicationID) == Ok(g2)
            && g2.applicationID != g.applicationID
  {
  }

  /** Some member of the list has the agreement ID. */
  predicate Lists(gs: seq<GovernanceAgreement>, id: GovernanceAgreementID)
  {
    exists i :: 0 <= i < |gs| && gs[i].id == id
  }

  lemma ListsAppend(gs: seq<GovernanceAgreement>, g: GovernanceAgreement)
    ensures forall id :: Lists(gs + [g], id) <==> Lists(gs, id) || g.id == id
  {
    var r := gs + [g];
    assert r[|gs|] == g;
    assert forall i :: 0 <= i < |gs| ==> r[i] == gs[i];
  }

  /** Appending an agreement whose ID is not listed yet keeps IDs distinct. */
  lemma AppendNewID(gs: seq<GovernanceAgreement>, g: GovernanceAgreement)
    requires forall i, j :: 0 <= i < j < |gs| ==> gs[i].id != gs[j].id
    requires forall i :: 0 <= i < |gs| ==> gs[i].id != g.id
    ensures var r := gs + [g]; forall i, j :: 0 <= i < j < |r| ==> r[i].id != r[j].id
  {
    var r := gs + [g];
    forall i, j | 0 <= i < j < |r| ensures r[i].id != r[j].id {
      assert r[i] == gs[i];
      if j < |gs| { assert r[j] == gs[j]; }
    }
  }

  class GovernanceRepository {
    var agreements: map<GovernanceAgreementID, GovernanceAgreement>
    var byApplication: map<ApplicationID, GovernanceAgreementID>

    /** Every agreement is stored under its own ID. */
    ghost predicate Valid()
      reads this
    {
      forall id :: id in agreements ==> agreements[id].id == id
    }

    constructor ()
      ensures Valid() && agreements == map[] && byApplication == map[]
    {
      agreements := map[];
      byApplication := map[];
    }

    /** The agreement `FindByApplicationID` would return for `appID`. */
    function AgreementFor(appID: ApplicationID): Result<GovernanceAgreement>
      reads this
    {
      ResolveByApplication(agreements, byApplication, appID)
    }

    /** `Save`: store the agreement and point its application at it. */
    method Save(g: GovernanceAgreement)
      requires Valid()
      modifies this
      ensures Valid()
      ensures agreements == old(agreements)[g.id := g]
      ensures byApplication == old(byApplication)[g.applicationID := g.id]
      ensures AgreementFor(g.applicationID) == Ok(g)
    {
      agreements := agreements[g.id := g];
      byApplication := byApplication[g.applicationID := g.id];
    }

    /** `FindByID`. */
    method FindByID(id: GovernanceAgreementID) returns (r: Result<GovernanceAgreement>)
      ensures r.Ok? <==> id in agreements
      ensures r.Ok? ==> r.value == agreements[id]
      ensures r.Err? ==> r.error == NotFound("governance agreement not found")
    {
      if id in agreements {
        r := Ok(agreements[id]);
      } else {
        r := Err(NotFound("governance agreement not found"));
      }
    }

    /** `FindByApplicationID`. */
    method FindByApplicationID(appID: ApplicationID) returns (r: Result<GovernanceAgreement>)
      ensures r == ResolveByApplication(agreements, byApplication, appID)
    {
      if appID !in byApplication {
        return Err(NotFound("governance agreement not found for application"));
      }
      var id := byApplication[appID];
      if id !in agreements {
        return Err(NotFound("governance agreement not found"));
      }
      r := Ok(agreements[id]);
    }

    /** `FindAll`: every stored agreement exactly once, in some order. */
    method FindAll() returns (gs: seq<GovernanceAgreement>)
      requires Valid()
      ensures |gs| == |agreements|
      ensures forall i, j :: 0 <= i < j < |gs| ==> gs[i].id != gs[j].id
      ensures forall i :: 0 <= i < |gs| ==> gs[i].id in agreements && agreements[gs[i].id] == gs[i]
      ensures forall id :: id in agreements ==> Lists(gs, id)
    {
      var keys := agreements.Keys;
      gs := [];
      while keys != {}
        invariant keys <= agreements.Keys
        invariant |gs| + |keys| == |agreements.Keys|
        invariant forall i, j :: 0 <= i < j < |gs| ==> gs[i].id != gs[j].id
        invariant forall i :: 0 <= i < |gs| ==>
                    gs[i].id in agreements && agreements[gs[i].id] == gs[i] && gs[i].id !in keys
        invariant forall id :: id in agreements && id !in keys ==> Lists(gs, id)
        decreases keys
      {
        var id :| id in keys;
        ListsAppend(gs, agreements[id]);
        AppendNewID(gs, agreements[id]);
        gs := gs + [agreements[id]];
        keys := keys - {id};
      }
      assert |agreements.Keys| == |agreements|;
    }

    /** `FindByStatus`: each stored agreement with that status exactly once,
        in some order. */
    method FindByStatus(status: AgreementStatus) returns (gs: seq<GovernanceAgreement>)
      requires Valid()
      ensures |gs| <= |agreements|
      ensures forall i, j :: 0 <= i < j < |gs| ==> gs[i].id != gs[j].id
      ensures forall i :: 0 <= i < |gs| ==>
                gs[i].id in agreements && agreements[gs[i].id] == gs[i] && gs[i].status == status
      ensures forall id :: id in agreements && agreements[id].status == status ==> Lists(gs, id)
    {
      var keys := agreements.Keys;
      gs := [];
      ghost var skipped := 0;
      while keys != {}
        invariant keys <= agreements.Keys
        invariant |gs| + skipped + |keys| == |agreements.Keys|
        invariant forall i, j :: 0 <= i < j < |gs| ==> gs[i].id != gs[j].id
        invariant forall i :: 0 <= i < |gs| ==>
                    gs[i].id in agreements && agreements[gs[i].id] == gs[i] && gs[i].id !in keys
                    && gs[i].status == status
        invariant forall id :: id in agreements && id !in keys && agreements[id].status == status ==>
                    Lists(gs, id)
        decreases keys
      {
        var id :| id in keys;
        var g := agreements[id];
        if g.status == status {
          ListsAppend(gs, g);
          AppendNewID(gs, g);
          gs := gs + [g];
        } else {
          skipped := skipped + 1;
        }
        keys := keys - {id};
      }
      assert |agreements.Keys| == |agreements|;
    }

    /** `Update`: overwrite a stored agreement; the application index is
        left as it is. */
    method Update(g: GovernanceAgreement) returns (r: Outcome)
      requires Valid()
      modifies this
      ensures Valid()
      ensures r.Pass? <==> g.id in old(agreements)
      ensures r.Pass? ==> agreements == old(agreements)[g.id := g]
      ensures r.Fail? ==> r == Fail(NotFound("governance agreement not found")) && agreements == old(agreements)
      ensures byApplication == old(byApplication)
    {
      if g.id !in agreements {
        return Fail(NotFound("governance agreement not found"));
      }
      agreements := agreements[g.id := g];
      r := Pass;
    }

    /** `Delete`: remove the agreement and the index entry of the application
        the stored agreement names. */
    method Delete(id: GovernanceAgreementID) returns (r: Outcome)
      requires Valid()
      modifies this
      ensures Valid()
      ensures r.Pass? <==> id in old(agreements)
      ensures r.Pass? ==> agreements == old(agreements) - {id}
                          && byApplication == old(byApplication) - {old(agreements)[id].applicationID}
      ensures r.Fail? ==> r == Fail(NotFound("governance agreement not found"))
                          && agreements == old(agreements) && byApplication == old(byApplication)
    {
      if id !in agreements {
        return Fail(NotFound("governance agreement not found"));
      }
      var g := agreements[id];
      agreements := agreements - {id};
      byApplication := byApplication - {g.applicationID};
      r := Pass;
    }

    /** `Exists`. */
    method Exists(id: GovernanceAgreementID) returns (b: bool)
      ensures b <==> id in agreements
    {
      b := id in agreements;
    }
  }
}
