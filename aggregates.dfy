/** The two aggregates of aggregates.go: a portfolio that guards its member
    list, and a governance agreement that guards its lifecycle. Each keeps
    the domain events its operations raise, in order. */
module Aggregates {
  import opened Wrappers
  import opened DomainTypes
  import opened Model
  import opened Events

  // ---------------------------------------------------- portfolio aggregate

  /** The error the duplicate scan of `AddApplication` stops at: members are
      examined in order and the first one sharing the new application's ID
      or name decides which error is reported. */
  function DuplicateError(apps: seq<Application>, app: Application): (e: Option<Error>)
    ensures e.None? <==> !HasID(apps, app.id) && !HasName(apps, app.name)
    ensures e.Some? ==> e.value == AlreadyExists("application already exists in portfolio")
                        || e.value == AlreadyExists("application with same name already exists in portfolio")
  {
    if apps == [] then None
    else if apps[0].id == app.id then Some(AlreadyExists("application already exists in portfolio"))
    else if apps[0].name == app.name then Some(AlreadyExists("application with same name already exists in portfolio"))
    else
      var e := DuplicateError(apps[1..], app);
      assert forall j :: 1 <= j < |apps| ==> apps[j] == apps[1..][j - 1];
      assert HasID(apps[1..], app.id) ==> HasID(apps, app.id);
      assert HasName(apps[1..], app.name) ==> HasName(apps, app.name);
      e
  }

  /** The scan is per member, not all IDs before all names: a name shared
      with an earlier member is reported even when a later member has the
      same ID. */
  lemma NameClashReportedBeforeLaterIDClash(a: Application, b: Application, app: Application)
    requires a.id != app.id && a.name == app.name && b.id == app.id
    ensures DuplicateError([a, b], app) == Some(AlreadyExists("application with same name already exists in portfolio"))
  {
  }

  /** What `AddApplication` reports for `app` against the current members:
      validation first, then the duplicate scan, then the agreement rule. */
  function AdmissionOf(apps: seq<Application>, app: Application): (r: Outcome)
    ensures r.Pass? <==> ValidateApplication(app).Pass? && !HasID(apps, app.id) && !HasName(apps, app.name)
                         && app.governanceAgreementID != ""
  {
    var v := ValidateApplication(app);
    if v.Fail? then Fail(Wrap("invalid application: ", v.error))
    else
      var d := DuplicateError(apps, app);
      if d.Some? then Fail(d.value)
      else if app.governanceAgreementID == "" then Fail(ValidationError("application must have a governance agreement"))
      else Pass
  }

  /** Admitting an application keeps both IDs and names pairwise distinct. */
  lemma AdmissionKeepsMembersDistinct(apps: seq<Application>, app: Application)
    requires UniqueIDs(apps) && UniqueNames(apps) && AdmissionOf(apps, app).Pass?
    ensures UniqueIDs(apps + [app]) && UniqueNames(apps + [app])
  {
    AppendKeepsIDsUnique(apps, app);
    var r := apps + [app];
    forall i, j | 0 <= i < j < |r| ensures r[i].name != r[j].name {
      assert r[i] == apps[i];
      if j < |apps| { assert r[j] == apps[j]; }
    }
  }

  /** The list `UpdateApplication` leaves: the member with the ID replaced
      in place. */
  function Replaced(apps: seq<Application>, app: Application): (r: seq<Application>)
    requires HasID(apps, app.id)
    ensures |r| == |apps|
  {
    apps[IndexOfID(apps, app.id) := app]
  }

  /** Replacing in place keeps IDs distinct. */
  lemma ReplacedKeepsIDsUnique(apps: seq<Application>, app: Application)
    requires UniqueIDs(apps) && HasID(apps, app.id)
    ensures UniqueIDs(Replaced(apps, app))
    ensures forall i :: 0 <= i < |apps| && i != IndexOfID(apps, app.id) ==> Replaced(apps, app)[i] == apps[i]
  {
    var k := IndexOfID(apps, app.id);
    var r := Replaced(apps, app);
    forall i, j | 0 <= i < j < |r| ensures r[i].id != r[j].id {
      if i == k { assert r[j] == apps[j]; }
      else if j == k { assert r[i] == apps[i]; }
      else { assert r[i] == apps[i] && r[j] == apps[j]; }
    }
  }

  /** `UpdateApplication` does not check names, so it can give two members
      the same name, which `AddApplication` would have refused. */
  lemma UpdateCanDuplicateNames(a: Application, b: Application)
    requires a.id != b.id && a.name != b.name
    ensures UniqueNames([a, b]) && HasID([a, b], b.id)
    ensures !UniqueNames(Replaced([a, b], b.(name := a.name)))
  {
    assert [a, b][1].id == b.id;
    var r := Replaced([a, b], b.(name := a.name));
    assert IndexOfID([a, b], b.id) == 1;
    assert r[0].name == r[1].name;
  }

  class ApplicationPortfolioAggregate {
    var portfolio: ApplicationPortfolio
    var domainEvents: seq<DomainEvent>

    /** Members never share an ID. */
    ghost predicate Valid()
      reads this
    {
      UniqueIDs(portfolio.applications)
    }

    constructor (p: ApplicationPortfolio, events: seq<DomainEvent>)
      ensures portfolio == p && domainEvents == events
    {
      portfolio := p;
      domainEvents := events;
    }

    /** `AddApplication`: on success append the application, stamp the
        portfolio and raise ApplicationAddedToPortfolio; on failure change
        nothing. */
    method AddApplication(app: Application, now: Time) returns (r: Outcome)
      requires Valid()
      modifies this
      ensures Valid()
      ensures r == AdmissionOf(old(portfolio.applications), app)
      ensures r.Pass? ==>
                portfolio == old(portfolio).(applications := old(portfolio.applications) + [app], updatedAt := now)
                && domainEvents == old(domainEvents) + [ApplicationAddedToPortfolio(portfolio.id, app.id, app.name,
                                                                                  app.governanceAgreementID, now)]
      ensures r.Pass? && UniqueNames(old(portfolio.applications)) ==> UniqueNames(portfolio.applications)
      ensures r.Fail? ==> portfolio == old(portfolio) && domainEvents == old(domainEvents)
    {
      var v := ValidateApplication(app);
      if v.Fail? {
        return Fail(Wrap("invalid application: ", v.error));
      }
      var apps := portfolio.applications;
      var i := 0;
      while i < |apps|
        invariant 0 <= i <= |apps|
        invariant DuplicateError(apps, app) == DuplicateError(apps[i..], app)
      {
        assert apps[i..][1..] == apps[i + 1..];
        if apps[i].id == app.id {
          return Fail(AlreadyExists("application already exists in portfolio"));
        }
        if apps[i].name == app.name {
          return Fail(AlreadyExists("application with same name already exists in portfolio"));
        }
        i := i + 1;
      }
      if app.governanceAgreementID == "" {
        return Fail(ValidationError("application must have a governance agreement"));
      }
      if UniqueNames(apps) {
        AdmissionKeepsMembersDistinct(apps, app);
      } else {
        AppendKeepsIDsUnique(apps, app);
      }
      portfolio := portfolio.(applications := apps + [app], updatedAt := now);
      domainEvents := domainEvents + [ApplicationAddedToPortfolio(portfolio.id, app.id, app.name,
                                                                  app.governanceAgreementID, now)];
      r := Pass;
    }

    /** `RemoveApplication`: cut out the first member with the ID, stamp the
        portfolio and raise ApplicationRemovedFromPortfolio naming it. */
    method RemoveApplication(appID: ApplicationID, now: Time) returns (r: Outcome)
      requires Valid()
      modifies this
      ensures Valid()
      ensures r.Pass? <==> HasID(old(portfolio.applications), appID)
      ensures r.Pass? ==>
                var apps := old(portfolio.applications);
                var k := IndexOfID(apps, appID);
                && portfolio == old(portfolio).(applications := RemoveAt(apps, k), updatedAt := now)
                && domainEvents == old(domainEvents) + [ApplicationRemovedFromPortfolio(portfolio.id, appID,
                                                                                      apps[k].name, now)]
                && |portfolio.applications| == |apps| - 1 && !HasID(portfolio.applications, appID)
      ensures r.Fail? ==>
                r == Fail(NotFound("application not found in portfolio"))
                && portfolio == old(portfolio) && domainEvents == old(domainEvents)
    {
      var apps := portfolio.applications;
      var i := 0;
      while i < |apps|
        invariant 0 <= i <= |apps|
        invariant forall j :: 0 <= j < i ==> apps[j].id != appID
      {
        if apps[i].id == appID {
          var removed := apps[i];
          RemoveFirstMatch(apps, appID);
          portfolio := portfolio.(applications := apps[..i] + apps[i + 1..], updatedAt := now);
          domainEvents := domainEvents + [ApplicationRemovedFromPortfolio(portfolio.id, removed.id, removed.name, now)];
          return Pass;
        }
        i := i + 1;
      }
      r := Fail(NotFound("application not found in portfolio"));
    }

    /** `UpdateApplication`: validate, then replace the member with the ID in
        place, stamp the portfolio and raise ApplicationUpdated. */
    method UpdateApplication(app: Application, now: Time) returns (r: Outcome)
      requires Valid()
      modifies this
      ensures Valid()
      ensures r.Pass? <==> ValidateApplication(app).Pass? && HasID(old(portfolio.applications), app.id)
      ensures ValidateApplication(app).Fail? ==> r == Fail(Wrap("invalid application: ", ValidateApplication(app).error))
      ensures ValidateApplication(app).Pass? && !HasID(old(portfolio.applications), app.id) ==>
                r == Fail(NotFound("application not found in portfolio"))
      ensures r.Pass? ==>
                portfolio == old(portfolio).(applications := Replaced(old(portfolio.applications), app), updatedAt := now)
                && domainEvents == old(domainEvents) + [ApplicationUpdated(portfolio.id, app.id, app.name, now)]
      ensures r.Fail? ==> portfolio == old(portfolio) && domainEvents == old(domainEvents)
    {
      var v := ValidateApplication(app);
      if v.Fail? {
        return Fail(Wrap("invalid application: ", v.error));
      }
      var apps := portfolio.applications;
      var i := 0;
      while i < |apps|
        invariant 0 <= i <= |apps|
        invariant forall j :: 0 <= j < i ==> apps[j].id != app.id
      {
        if apps[i].id == app.id {
          ReplacedKeepsIDsUnique(apps, app);
          portfolio := portfolio.(applications := apps[i := app], updatedAt := now);
          domainEvents := domainEvents + [ApplicationUpdated(portfolio.id, app.id, app.name, now)];
          return Pass;
        }
        i := i + 1;
      }
      r := Fail(NotFound("application not found in portfolio"));
    }

    /** `ClearDomainEvents`: forget the raised events, keep the portfolio. */
    method ClearDomainEvents()
      modifies this
      ensures domainEvents == [] && portfolio == old(portfolio)
    {
      domainEvents := [];
    }
  }

  /** The portfolio `NewApplicationPortfolioAggregate` starts from. */
  function NewPortfolio(id: PortfolioID, name: string, description: string, owner: string, now: Time)
    : ApplicationPortfolio
  {
    ApplicationPortfolio(id, name, description, owner, [], [], now, now)
  }

  /** Why `NewApplicationPortfolioAggregate` refuses its arguments, if it
      does: ID, name and owner are required, checked in that order. */
  function PortfolioArgumentsError(id: PortfolioID, name: string, owner: string): (e: Option<Error>)
    ensures e.None? <==> id != "" && name != "" && owner != ""
  {
    if id == "" then Some(ValidationError("portfolio ID cannot be empty"))
    else if name == "" then Some(ValidationError("portfolio name cannot be empty"))
    else if owner == "" then Some(ValidationError("portfolio owner cannot be empty"))
    else None
  }

  /** `NewApplicationPortfolioAggregate`: an empty portfolio and a single
      PortfolioCreated event, or the first missing argument's error. */
  method NewApplicationPortfolioAggregate(id: PortfolioID, name: string, description: string,
                                          owner: string, now: Time)
    returns (r: Result<ApplicationPortfolioAggregate>)
    ensures r.Ok? <==> PortfolioArgumentsError(id, name, owner).None?
    ensures r.Err? ==> r.error == PortfolioArgumentsError(id, name, owner).value
    ensures r.Ok? ==>
              fresh(r.value) && r.value.Valid()
              && r.value.portfolio == NewPortfolio(id, name, description, owner, now)
              && r.value.domainEvents == [PortfolioCreated(id, name, owner, now)]
  {
    var e := PortfolioArgumentsError(id, name, owner);
    if e.Some? {
      return Err(e.value);
    }
    var a := new ApplicationPortfolioAggregate(NewPortfolio(id, name, description, owner, now),
                                               [PortfolioCreated(id, name, owner, now)]);
    r := Ok(a);
  }

  // ---------------------------------------------------- agreement aggregate

  /** The agreement `NewGovernanceAgreementAggregate` starts from: version
      "1.0", Draft, every component empty. */
  function DraftAgreement(id: GovernanceAgreementID, applicationID: ApplicationID, title: string, now: Time)
    : (g: GovernanceAgreement)
    ensures g.status == AgreementDraft && g.version == "1.0"
    ensures g.id == id && g.applicationID == applicationID && g.title == title
  {
    GovernanceAgreement(id, applicationID, title, "1.0", AgreementDraft, now, now,
                        ResponsibilityMatrix([]), Strategy([]), Acquisition([]), Performance([]),
                        Conformance([], NoComplianceMonitoring), Implementation([]),
                        EvaluatePrinciple([], ZeroTime), NoDirection)
  }

  /** Why `NewGovernanceAgreementAggregate` refuses its arguments, if it
      does: ID, application ID and title are required, in that order. */
  function AgreementArgumentsError(id: GovernanceAgreementID, applicationID: ApplicationID, title: string)
    : (e: Option<Error>)
    ensures e.None? <==> id != "" && applicationID != "" && title != ""
    ensures e.None? ==> ValidateAgreement(DraftAgreement(id, applicationID, title, 0)).Pass?
  {
    if id == "" then Some(ValidationError("governance agreement ID cannot be empty"))
    else if applicationID == "" then Some(ValidationError("application ID cannot be empty"))
    else if title == "" then Some(ValidationError("governance agreement title cannot be empty"))
    else None
  }

  /** The lifecycle operations of the agreement aggregate, as a transition
      system on the status alone. */
  datatype AgreementOp = UpdateComponent(component: string) | Approve | Activate

  /** The status after one operation: approval only from Draft, activation
      only from Approved, and anything else leaves the status alone. */
  function Step(s: AgreementStatus, op: AgreementOp): AgreementStatus
  {
    match op
    case UpdateComponent(_) => s
    case Approve => if s == AgreementDraft then AgreementApproved else s
    case Activate => if s == AgreementApproved then AgreementActive else s
  }

  function Run(s: AgreementStatus, ops: seq<AgreementOp>): AgreementStatus
    decreases |ops|
  {
    if ops == [] then s else Run(Step(s, ops[0]), ops[1..])
  }

  /** The position of a status along Draft, Approved, Active. */
  function Progress(s: AgreementStatus): nat
  {
    match s
    case AgreementDraft => 0
    case AgreementApproved => 1
    case AgreementActive => 2
    case AgreementSuspended => 3
    case AgreementRetired => 4
  }

  /** No operation moves the status backwards. */
  lemma StepNeverGoesBack(s: AgreementStatus, op: AgreementOp)
    ensures Progress(Step(s, op)) >= Progress(s)
    ensures Step(s, op) != s ==> Progress(Step(s, op)) == Progress(s) + 1 && Progress(s) < 2
  {
  }

  /** An agreement that starts as Draft and ends Active went through an
      approval and, after it, an activation. */
  lemma {:induction false} ActiveNeedsApprovalThenActivation(s: AgreementStatus, ops: seq<AgreementOp>)
    requires s == AgreementDraft || s == AgreementApproved
    requires Run(s, ops) == AgreementActive
    ensures s == AgreementDraft ==>
              exists i, j :: 0 <= i < j < |ops| && ops[i] == Approve && ops[j] == Activate
    ensures exists j :: 0 <= j < |ops| && ops[j] == Activate
    decreases |ops|
  {
    assert ops != [];
    var t := Step(s, ops[0]);
    var rest := ops[1..];
    if s == AgreementApproved && ops[0] == Activate {
      assert ops[0] == Activate;
    } else {
      assert t == AgreementDraft || t == AgreementApproved;
      ActiveNeedsApprovalThenActivation(t, rest);
      var j :| 0 <= j < |rest| && rest[j] == Activate;
      assert ops[j + 1] == Activate;
      if s == AgreementDraft {
        if ops[0] == Approve {
          assert ops[0] == Approve && ops[j + 1] == Activate;
        } else {
          var i, j' :| 0 <= i < j' < |rest| && rest[i] == Approve && rest[j'] == Activate;
          assert ops[i + 1] == Approve && ops[j' + 1] == Activate;
        }
      }
    }
  }

  class GovernanceAgreementAggregate {
    var agreement: GovernanceAgreement
    var domainEvents: seq<DomainEvent>

    constructor (g: GovernanceAgreement, events: seq<DomainEvent>)
      ensures agreement == g && domainEvents == events
    {
      agreement := g;
      domainEvents := events;
    }

    /** `UpdateStrategy`: replace the strategy and raise an update event
        naming "strategy"; it cannot fail. */
    method UpdateStrategy(strategy: Strategy, now: Time) returns (r: Outcome)
      modifies this
      ensures r == Pass
      ensures agreement == old(agreement).(strategy := strategy, updatedAt := now)
      ensures domainEvents == old(domainEvents) + [GovernanceAgreementUpdated(agreement.id, "strategy", now)]
    {
      agreement := agreement.(strategy := strategy, updatedAt := now);
      domainEvents := domainEvents + [GovernanceAgreementUpdated(agreement.id, "strategy", now)];
      r := Pass;
    }

    /** `UpdateAcquisition`: replace the acquisition component. */
    method UpdateAcquisition(acquisition: Acquisition, now: Time) returns (r: Outcome)
      modifies this
      ensures r == Pass
      ensures agreement == old(agreement).(acquisition := acquisition, updatedAt := now)
      ensures domainEvents == old(domainEvents) + [GovernanceAgreementUpdated(agreement.id, "acquisition", now)]
    {
      agreement := agreement.(acquisition := acquisition, updatedAt := now);
      domainEvents := domainEvents + [GovernanceAgreementUpdated(agreement.id, "acquisition", now)];
      r := Pass;
    }

    /** `UpdatePerformance`: replace the performance component. */
    method UpdatePerformance(performance: Performance, now: Time) returns (r: Outcome)
      modifies this
      ensures r == Pass
      ensures agreement == old(agreement).(performance := performance, updatedAt := now)
      ensures domainEvents == old(domainEvents) + [GovernanceAgreementUpdated(agreement.id, "performance", now)]
    {
      agreement := agreement.(performance := performance, updatedAt := now);
      domainEvents := domainEvents + [GovernanceAgreementUpdated(agreement.id, "performance", now)];
      r := Pass;
    }

    /** `UpdateConformance`: replace the conformance component. */
    method UpdateConformance(conformance: Conformance, now: Time) returns (r: Outcome)
      modifies this
      ensures r == Pass
      ensures agreement == old(agreement).(conformance := conformance, updatedAt := now)
      ensures domainEvents == old(domainEvents) + [GovernanceAgreementUpdated(agreement.id, "conformance", now)]
    {
      agreement := agreement.(conformance := conformance, updatedAt := now);
      domainEvents := domainEvents + [GovernanceAgreementUpdated(agreement.id, "conformance", now)];
      r := Pass;
    }

    /** `UpdateImplementation`: replace the implementation component. */
    method UpdateImplementation(implementation: Implementation, now: Time) returns (r: Outcome)
      modifies this
      ensures r == Pass
      ensures agreement == old(agreement).(implementation := implementation, updatedAt := now)
      ensures domainEvents == old(domainEvents) + [GovernanceAgreementUpdated(agreement.id, "implementation", now)]
    {
      agreement := agreement.(implementation := implementation, updatedAt := now);
      domainEvents := domainEvents + [GovernanceAgreementUpdated(agreement.id, "implementation", now)];
      r := Pass;
    }

    /** `Approve`: Draft becomes Approved with an approval event; from any
        other status nothing changes. */
    method Approve(now: Time) returns (r: Outcome)
      modifies this
      ensures r.Pass? <==> old(agreement.status) == AgreementDraft
      ensures agreement.status == Step(old(agreement.status), AgreementOp.Approve)
      ensures r.Pass? ==>
                agreement == old(agreement).(status := AgreementApproved, updatedAt := now)
                && domainEvents == old(domainEvents) + [GovernanceAgreementApproved(agreement.id, now)]
      ensures r.Fail? ==>
                r == Fail(InvalidState("only draft agreements can be approved"))
                && agreement == old(agreement) && domainEvents == old(domainEvents)
    {
      if agreement.status != AgreementDraft {
        return Fail(InvalidState("only draft agreements can be approved"));
      }
      agreement := agreement.(status := AgreementApproved, updatedAt := now);
      domainEvents := domainEvents + [GovernanceAgreementApproved(agreement.id, now)];
      r := Pass;
    }

    /** `Activate`: Approved becomes Active with an activation event; from
        any other status nothing changes. */
    method Activate(now: Time) returns (r: Outcome)
      modifies this
      ensures r.Pass? <==> old(agreement.status) == AgreementApproved
      ensures agreement.status == Step(old(agreement.status), AgreementOp.Activate)
      ensures r.Pass? ==>
                agreement == old(agreement).(status := AgreementActive, updatedAt := now)
                && domainEvents == old(domainEvents) + [GovernanceAgreementActivated(agreement.id, now)]
      ensures r.Fail? ==>
                r == Fail(InvalidState("only approved agreements can be activated"))
                && agreement == old(agreement) && domainEvents == old(domainEvents)
    {
      if agreement.status != AgreementApproved {
        return Fail(InvalidState("only approved agreements can be activated"));
      }
      agreement := agreement.(status := AgreementActive, updatedAt := now);
      domainEvents := domainEvents + [GovernanceAgreementActivated(agreement.id, now)];
      r := Pass;
    }

    /** `ClearDomainEvents`: forget the raised events, keep the agreement. */
    method ClearDomainEvents()
      modifies this
      ensures domainEvents == [] && agreement == old(agreement)
    {
      domainEvents := [];
    }
  }

  /** `NewGovernanceAgreementAggregate`: a Draft agreement at version "1.0"
      and a single GovernanceAgreementCreated event, or the first missing
      argument's error. */
  method NewGovernanceAgreementAggregate(id: GovernanceAgreementID, applicationID: ApplicationID,
                                         title: string, now: Time)
    returns (r: Result<GovernanceAgreementAggregate>)
    ensures r.Ok? <==> AgreementArgumentsError(id, applicationID, title).None?
    ensures r.Err? ==> r.error == AgreementArgumentsError(id, applicationID, title).value
    ensures r.Ok? ==>
              fresh(r.value)
              && r.value.agreement == DraftAgreement(id, applicationID, title, now)
              && r.value.domainEvents == [GovernanceAgreementCreated(id, applicationID, title, now)]
  {
    var e := AgreementArgumentsError(id, applicationID, title);
    if e.Some? {
      return Err(e.value);
    }
    var a := new GovernanceAgreementAggregate(DraftAgreement(id, applicationID, title, now),
                                              [GovernanceAgreementCreated(id, applicationID, title, now)]);
    r := Ok(a);
  }
}
