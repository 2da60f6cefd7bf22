/** The validation rules and the portfolio membership operations of
    model.go, plus the facts about application lists that the aggregates and
    services reuse. */
module Model {
  import opened Wrappers
  import opened DomainTypes

  // ------------------------------------------------------------- validation

  /** `Application.Validate`: an ID and a name are required, checked in that order. */
  function ValidateApplication(a: Application): (r: Outcome)
    ensures r.Pass? <==> a.id != "" && a.name != ""
    ensures a.id == "" ==> r == Fail(ValidationError("application ID cannot be empty"))
    ensures a.id != "" && a.name == "" ==> r == Fail(ValidationError("application name cannot be empty"))
  {
    if a.id == "" then Fail(ValidationError("application ID cannot be empty"))
    else if a.name == "" then Fail(ValidationError("application name cannot be empty"))
    else Pass
  }

  /** `GovernanceAgreement.Validate`: ID, application ID and title are required. */
  function ValidateAgreement(g: GovernanceAgreement): (r: Outcome)
    ensures r.Pass? <==> g.id != "" && g.applicationID != "" && g.title != ""
    ensures g.id == "" ==> r == Fail(ValidationError("governance agreement ID cannot be empty"))
    ensures g.id != "" && g.applicationID == "" ==> r == Fail(ValidationError("application ID cannot be empty"))
    ensures g.id != "" && g.applicationID != "" && g.title == "" ==>
              r == Fail(ValidationError("governance agreement title cannot be empty"))
  {
    if g.id == "" then Fail(ValidationError("governance agreement ID cannot be empty"))
    else if g.applicationID == "" then Fail(ValidationError("application ID cannot be empty"))
    else if g.title == "" then Fail(ValidationError("governance agreement title cannot be empty"))
    else Pass
  }

  /** `ApplicationPortfolio.Validate`: an ID and a name are required. */
  function ValidatePortfolio(p: ApplicationPortfolio): (r: Outcome)
    ensures r.Pass? <==> p.id != "" && p.name != ""
    ensures p.id == "" ==> r == Fail(ValidationError("portfolio ID cannot be empty"))
    ensures p.id != "" && p.name == "" ==> r == Fail(ValidationError("portfolio name cannot be empty"))
  {
    if p.id == "" then Fail(ValidationError("portfolio ID cannot be empty"))
    else if p.name == "" then Fail(ValidationError("portfolio name cannot be empty"))
    else Pass
  }

  // ---------------------------------------------------- application lists

  predicate HasID(apps: seq<Application>, id: ApplicationID)
  {
    exists i :: 0 <= i < |apps| && apps[i].id == id
  }

  predicate HasName(apps: seq<Application>, name: string)
  {
    exists i :: 0 <= i < |apps| && apps[i].name == name
  }

  /** No two members of the list share an ID. */
  predicate UniqueIDs(apps: seq<Application>)
  {
    forall i, j :: 0 <= i < j < |apps| ==> apps[i].id != apps[j].id
  }

  /** No two members of the list share a name. */
  predicate UniqueNames(apps: seq<Application>)
  {
    forall i, j :: 0 <= i < j < |apps| ==> apps[i].name != apps[j].name
  }

  /** The position of the first member with the given ID, or -1 when there is none. */
  function IndexOfID(apps: seq<Application>, id: ApplicationID): (k: int)
    ensures -1 <= k < |apps|
    ensures k == -1 <==> !HasID(apps, id)
    ensures k >= 0 ==> apps[k].id == id && forall j :: 0 <= j < k ==> apps[j].id != id
  {
    if |apps| == 0 then -1
    else if apps[0].id == id then 0
    else
      var k := IndexOfID(apps[1..], id);
      assert forall j :: 1 <= j < |apps| ==> apps[j] == apps[1..][j - 1];
      if k == -1 then -1 else k + 1
  }

  /** The list with the member at position `k` cut out, the rest in order. */
  function RemoveAt(apps: seq<Application>, k: nat): (r: seq<Application>)
    requires k < |apps|
  {
    apps[..k] + apps[k + 1..]
  }

  /** An ID occurs in an extended list exactly when it occurs in the list or
      is the new member's. */
  lemma HasIDAppend(apps: seq<Application>, app: Application, id: ApplicationID)
    ensures HasID(apps + [app], id) <==> HasID(apps, id) || app.id == id
  {
    var r := apps + [app];
    if HasID(apps, id) {
      var i :| 0 <= i < |apps| && apps[i].id == id;
      assert r[i] == apps[i];
    }
    if app.id == id {
      assert r[|apps|] == app;
    }
    if HasID(r, id) {
      var i :| 0 <= i < |r| && r[i].id == id;
      if i < |apps| { assert r[i] == apps[i]; }
    }
  }

  /** Appending an application whose ID is new keeps IDs unique. */
  lemma AppendKeepsIDsUnique(apps: seq<Application>, app: Application)
    requires UniqueIDs(apps) && !HasID(apps, app.id)
    ensures UniqueIDs(apps + [app])
  {
    var r := apps + [app];
    forall i, j | 0 <= i < j < |r| ensures r[i].id != r[j].id {
      if j == |apps| {
        assert r[i] == apps[i];
      } else {
        assert r[i] == apps[i] && r[j] == apps[j];
      }
    }
  }

  /** Removing the first member with a given ID from a list with unique IDs
      drops exactly that member: the ID is gone, every member with another
      ID stays, nothing new appears, and IDs stay unique. */
  lemma {:induction false} RemoveFirstMatch(apps: seq<Application>, id: ApplicationID)
    requires UniqueIDs(apps) && HasID(apps, id)
    ensures IndexOfID(apps, id) >= 0
    ensures var r := RemoveAt(apps, IndexOfID(apps, id));
              && |r| == |apps| - 1
              && !HasID(r, id)
              && UniqueIDs(r)
              && (forall a :: a in r <==> a in apps && a.id != id)
  {
    var k := IndexOfID(apps, id);
    var r := RemoveAt(apps, k);
    assert forall j :: 0 <= j < k ==> r[j] == apps[j];
    assert forall j :: k <= j < |r| ==> r[j] == apps[j + 1];
    forall j | 0 <= j < |r| ensures r[j].id != id {
      if j >= k { assert apps[j + 1].id != apps[k].id; }
    }
    forall i, j | 0 <= i < j < |r| ensures r[i].id != r[j].id {
      var i', j' := if i < k then i else i + 1, if j < k then j else j + 1;
      assert r[i] == apps[i'] && r[j] == apps[j'];
    }
    forall a ensures a in r <==> a in apps && a.id != id {
      if a in apps && a.id != id {
        var m :| 0 <= m < |apps| && apps[m] == a;
        assert m != k;
        if m < k { assert r[m] == a; } else { assert r[m - 1] == a; }
      }
    }
  }

  // ------------------------------------------ ApplicationPortfolio mutators

  /** `ApplicationPortfolio.AddApplication`: validate, refuse a duplicate ID,
      otherwise append and stamp `updatedAt`; on any error the portfolio is
      returned unchanged. */
  method AddApplication(p: ApplicationPortfolio, app: Application, now: Time)
    returns (q: ApplicationPortfolio, r: Outcome)
    ensures ValidateApplication(app).Fail? ==> r == ValidateApplication(app)
    ensures ValidateApplication(app).Pass? && HasID(p.applications, app.id) ==>
              r == Fail(AlreadyExists("application already exists in portfolio"))
    ensures r.Pass? <==> ValidateApplication(app).Pass? && !HasID(p.applications, app.id)
    ensures r.Pass? ==> q == p.(applications := p.applications + [app], updatedAt := now)
    ensures r.Fail? ==> q == p
  {
    q := p;
    r := ValidateApplication(app);
    if r.Fail? {
      return;
    }
    var i := 0;
    while i < |p.applications|
      invariant 0 <= i <= |p.applications|
      invariant forall j :: 0 <= j < i ==> p.applications[j].id != app.id
    {
      if p.applications[i].id == app.id {
        r := Fail(AlreadyExists("application already exists in portfolio"));
        return;
      }
      i := i + 1;
    }
    q := p.(applications := p.applications + [app], updatedAt := now);
  }

  /** `ApplicationPortfolio.RemoveApplication`: cut out the first member with
      the ID and stamp `updatedAt`, or report that there is none. */
  method RemoveApplication(p: ApplicationPortfolio, appID: ApplicationID, now: Time)
    returns (q: ApplicationPortfolio, r: Outcome)
    ensures r.Pass? <==> HasID(p.applications, appID)
    ensures r.Fail? ==> r == Fail(NotFound("application not found in portfolio")) && q == p
    ensures r.Pass? ==>
              q == p.(applications := RemoveAt(p.applications, IndexOfID(p.applications, appID)),
                      updatedAt := now)
  {
    var i := 0;
    while i < |p.applications|
      invariant 0 <= i <= |p.applications|
      invariant forall j :: 0 <= j < i ==> p.applications[j].id != appID
    {
      if p.applications[i].id == appID {
        q := p.(applications := p.applications[..i] + p.applications[i + 1..], updatedAt := now);
        r := Pass;
        return;
      }
      i := i + 1;
    }
    q, r := p, Fail(NotFound("application not found in portfolio"));
  }
}
