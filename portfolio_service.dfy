/** The portfolio application service (application/portfolio_service.go):
    commands that load a portfolio, check it against the application and
    agreement stores, save it back and publish an event. The stores are the
    in-memory repositories; `now` stands for the wall clock. */
module PortfolioService {
  import opened Wrappers
  import opened DomainTypes
  import opened Model
  import opened Events
  import Aggregates
  import MemoryApplications
  import MemoryGovernance
  import MemoryPortfolios
  import MemoryEvents
  import Publishing

  /** `CreatePortfolio`: build the aggregate, store its portfolio and publish
      its events. Only the aggregate's argument checks can fail it. */
  method CreatePortfolio(portfolioRepo: MemoryPortfolios.PortfolioRepository, eventRepo: MemoryEvents.EventRepository,
                         id: PortfolioID, name: string, description: string, owner: string, now: Time)
    returns (r: Result<ApplicationPortfolio>)
    requires portfolioRepo.Valid()
    modifies portfolioRepo, eventRepo
    ensures portfolioRepo.Valid()
    ensures r.Ok? <==> Aggregates.PortfolioArgumentsError(id, name, owner).None?
    ensures r.Err? ==>
              r.error == Wrap("failed to create portfolio aggregate: ", Aggregates.PortfolioArgumentsError(id, name, owner).value)
              && portfolioRepo.portfolios == old(portfolioRepo.portfolios)
              && portfolioRepo.byOwner == old(portfolioRepo.byOwner)
              && eventRepo.events == old(eventRepo.events)
    ensures r.Ok? ==>
              r.value == Aggregates.NewPortfolio(id, name, description, owner, now)
              && r.value.applications == [] && r.value.kpis == []
              && portfolioRepo.portfolios == old(portfolioRepo.portfolios)[id := r.value]
              && portfolioRepo.byOwner == old(portfolioRepo.byOwner)[owner := old(portfolioRepo.OwnerIndex(owner)) + [id]]
              && eventRepo.events == old(eventRepo.events) + [PortfolioCreated(id, name, owner, now)]
  {
    var a := Aggregates.NewApplicationPortfolioAggregate(id, name, description, owner, now);
    if a.Err? {
      return Err(Wrap("failed to create portfolio aggregate: ", a.error));
    }
    var portfolio := a.value.portfolio;
    portfolioRepo.Save(portfolio);
    Publishing.PublishAll(eventRepo, a.value.domainEvents);
    r := Ok(portfolio);
  }

  /** What `AddApplicationToPortfolio` decides before it writes anything:
      the application must be stored, an agreement must be indexed for it,
      the portfolio must be stored and must not list the application yet,
      checked in that order. */
  function AdmissionToPortfolio(applications: map<ApplicationID, Application>,
                                agreements: map<GovernanceAgreementID, GovernanceAgreement>,
                                byApplication: map<ApplicationID, GovernanceAgreementID>,
                                portfolios: map<PortfolioID, ApplicationPortfolio>,
                                portfolioID: PortfolioID, appID: ApplicationID): (r: Outcome)
    ensures r.Pass? <==>
              && appID in applications
              && MemoryGovernance.ResolveByApplication(agreements, byApplication, appID).Ok?
              && portfolioID in portfolios
              && !HasID(portfolios[portfolioID].applications, appID)
    ensures appID !in applications ==> r == Fail(Wrap("application not found: ", NotFound("application not found")))
  {
    if appID !in applications then Fail(Wrap("application not found: ", NotFound("application not found")))
    else
      var g := MemoryGovernance.ResolveByApplication(agreements, byApplication, appID);
      if g.Err? then Fail(Wrap("governance agreement not found for application: ", g.error))
      else if portfolioID !in portfolios then Fail(Wrap("portfolio not found: ", NotFound("portfolio not found")))
      else if HasID(portfolios[portfolioID].applications, appID) then
        Fail(AlreadyExists("application already exists in portfolio"))
      else Pass
  }

  /** `AddApplicationToPortfolio`: on success the stored portfolio gains a
      copy of the stored application record at the end, its owner index
      gains the portfolio's ID once more, and one event is published; any
      failure writes nothing. */
  method AddApplicationToPortfolio(portfolioRepo: MemoryPortfolios.PortfolioRepository,
                                   appRepo: MemoryApplications.ApplicationRepository,
                                   agreementRepo: MemoryGovernance.GovernanceRepository,
                                   eventRepo: MemoryEvents.EventRepository,
                                   portfolioID: PortfolioID, appID: ApplicationID, now: Time)
    returns (r: Outcome)
    requires portfolioRepo.Valid() && appRepo.Valid()
    modifies portfolioRepo, eventRepo
    ensures portfolioRepo.Valid()
    ensures r == AdmissionToPortfolio(appRepo.applications, agreementRepo.agreements, agreementRepo.byApplication,
                                      old(portfolioRepo.portfolios), portfolioID, appID)
    ensures r.Pass? ==>
              var p := old(portfolioRepo.portfolios)[portfolioID];
              var app := appRepo.applications[appID];
              && portfolioRepo.portfolios == old(portfolioRepo.portfolios)[portfolioID :=
                   p.(applications := p.applications + [app], updatedAt := now)]
              && portfolioRepo.byOwner == old(portfolioRepo.byOwner)[p.owner :=
                   old(portfolioRepo.OwnerIndex(p.owner)) + [portfolioID]]
              && eventRepo.events == old(eventRepo.events) +
                   [ApplicationAddedToPortfolio(portfolioID, appID, app.name, app.governanceAgreementID, now)]
              && (UniqueIDs(p.applications) ==> UniqueIDs(p.applications + [app]))
    ensures r.Fail? ==>
              portfolioRepo.portfolios == old(portfolioRepo.portfolios)
              && portfolioRepo.byOwner == old(portfolioRepo.byOwner)
              && eventRepo.events == old(eventRepo.events)
  {
    var app := appRepo.FindByID(appID);
    if app.Err? {
      return Fail(Wrap("application not found: ", app.error));
    }
    var g := agreementRepo.FindByApplicationID(appID);
    if g.Err? {
      return Fail(Wrap("governance agreement not found for application: ", g.error));
    }
    var found := portfolioRepo.FindByID(portfolioID);
    if found.Err? {
      return Fail(Wrap("portfolio not found: ", found.error));
    }
    var p := found.value;
    var i := 0;
    while i < |p.applications|
      invariant 0 <= i <= |p.applications|
      invariant forall j :: 0 <= j < i ==> p.applications[j].id != appID
    {
      if p.applications[i].id == appID {
        return Fail(AlreadyExists("application already exists in portfolio"));
      }
      i := i + 1;
    }
    if UniqueIDs(p.applications) {
      AppendKeepsIDsUnique(p.applications, app.value);
    }
    portfolioRepo.Save(p.(applications := p.applications + [app.value], updatedAt := now));
    eventRepo.Save(ApplicationAddedToPortfolio(portfolioID, appID, app.value.name,
                                               app.value.governanceAgreementID, now));
    r := Pass;
  }

  /** `RemoveApplicationFromPortfolio`: cut the first member with the ID out
      of the stored portfolio, keeping the others in order, save it and
      publish one event naming the removed member; a missing portfolio or
      member writes nothing. */
  method RemoveApplicationFromPortfolio(portfolioRepo: MemoryPortfolios.PortfolioRepository,
                                        eventRepo: MemoryEvents.EventRepository,
                                        portfolioID: PortfolioID, appID: ApplicationID, now: Time)
    returns (r: Outcome)
    requires portfolioRepo.Valid()
    modifies portfolioRepo, eventRepo
    ensures portfolioRepo.Valid()
    ensures portfolioID !in old(portfolioRepo.portfolios) ==>
              r == Fail(Wrap("portfolio not found: ", NotFound("portfolio not found")))
    ensures portfolioID in old(portfolioRepo.portfolios) && !HasID(old(portfolioRepo.portfolios)[portfolioID].applications, appID) ==>
              r == Fail(NotFound("application not found in portfolio"))
    ensures r.Pass? <==>
              portfolioID in old(portfolioRepo.portfolios) && HasID(old(portfolioRepo.portfolios)[portfolioID].applications, appID)
    ensures r.Pass? ==>
              var p := old(portfolioRepo.portfolios)[portfolioID];
              var k := IndexOfID(p.applications, appID);
              && portfolioRepo.portfolios == old(portfolioRepo.portfolios)[portfolioID :=
                   p.(applications := RemoveAt(p.applications, k), updatedAt := now)]
              && portfolioRepo.byOwner == old(portfolioRepo.byOwner)[p.owner :=
                   old(portfolioRepo.OwnerIndex(p.owner)) + [portfolioID]]
              && eventRepo.events == old(eventRepo.events) +
                   [ApplicationRemovedFromPortfolio(portfolioID, appID, p.applications[k].name, now)]
    ensures r.Fail? ==>
              portfolioRepo.portfolios == old(portfolioRepo.portfolios)
              && portfolioRepo.byOwner == old(portfolioRepo.byOwner)
              && eventRepo.events == old(eventRepo.events)
  {
    var found := portfolioRepo.FindByID(portfolioID);
    if found.Err? {
      return Fail(Wrap("portfolio not found: ", found.error));
    }
    var p := found.value;
    var i := 0;
    while i < |p.applications|
      invariant 0 <= i <= |p.applications|
      invariant forall j :: 0 <= j < i ==> p.applications[j].id != appID
    {
      if p.applications[i].id == appID {
        var removed := p.applications[i];
        portfolioRepo.Save(p.(applications := p.applications[..i] + p.applications[i + 1..], updatedAt := now));
        eventRepo.Save(ApplicationRemovedFromPortfolio(portfolioID, appID, removed.name, now));
        return Pass;
      }
      i := i + 1;
    }
    r := Fail(NotFound("application not found in portfolio"));
  }

  /** `GetPortfolio`: the stored portfolio, or the lookup error wrapped. */
  method GetPortfolio(portfolioRepo: MemoryPortfolios.PortfolioRepository, portfolioID: PortfolioID)
    returns (r: Result<ApplicationPortfolio>)
    ensures r.Ok? <==> portfolioID in portfolioRepo.portfolios
    ensures r.Ok? ==> r.value == portfolioRepo.portfolios[portfolioID]
    ensures r.Err? ==> r.error == Wrap("failed to get portfolio: ", NotFound("portfolio not found"))
  {
    var found := portfolioRepo.FindByID(portfolioID);
    if found.Err? {
      return Err(Wrap("failed to get portfolio: ", found.error));
    }
    r := Ok(found.value);
  }

  /** `UpdatePortfolio`: rename and redescribe a stored portfolio; owner,
      members and KPIs stay. Saving appends the ID to the owner index again. */
  method UpdatePortfolio(portfolioRepo: MemoryPortfolios.PortfolioRepository, portfolioID: PortfolioID,
                         name: string, description: string, now: Time)
    returns (r: Outcome)
    requires portfolioRepo.Valid()
    modifies portfolioRepo
    ensures portfolioRepo.Valid()
    ensures r.Pass? <==> portfolioID in old(portfolioRepo.portfolios)
    ensures r.Pass? ==>
              var p := old(portfolioRepo.portfolios)[portfolioID];
              && portfolioRepo.portfolios == old(portfolioRepo.portfolios)[portfolioID :=
                   p.(name := name, description := description, updatedAt := now)]
              && portfolioRepo.byOwner == old(portfolioRepo.byOwner)[p.owner :=
                   old(portfolioRepo.OwnerIndex(p.owner)) + [portfolioID]]
    ensures r.Fail? ==>
              r == Fail(Wrap("portfolio not found: ", NotFound("portfolio not found")))
              && portfolioRepo.portfolios == old(portfolioRepo.portfolios)
              && portfolioRepo.byOwner == old(portfolioRepo.byOwner)
  {
    var found := portfolioRepo.FindByID(portfolioID);
    if found.Err? {
      return Fail(Wrap("portfolio not found: ", found.error));
    }
    portfolioRepo.Save(found.value.(name := name, description := description, updatedAt := now));
    r := Pass;
  }

  /** `DeletePortfolio`: only an empty stored portfolio may be deleted. */
  method DeletePortfolio(portfolioRepo: MemoryPortfolios.PortfolioRepository, portfolioID: PortfolioID)
    returns (r: Outcome)
    requires portfolioRepo.Valid()
    modifies portfolioRepo
    ensures portfolioRepo.Valid()
    ensures r.Pass? <==>
              portfolioID in old(portfolioRepo.portfolios) && old(portfolioRepo.portfolios)[portfolioID].applications == []
    ensures portfolioID !in old(portfolioRepo.portfolios) ==>
              r == Fail(Wrap("portfolio not found: ", NotFound("portfolio not found")))
    ensures portfolioID in old(portfolioRepo.portfolios) && old(portfolioRepo.portfolios)[portfolioID].applications != [] ==>
              r == Fail(InvalidState("cannot delete portfolio with applications"))
    ensures r.Pass? ==>
              var owner := old(portfolioRepo.portfolios)[portfolioID].owner;
              && portfolioRepo.portfolios == old(portfolioRepo.portfolios) - {portfolioID}
              && (owner in old(portfolioRepo.byOwner) ==>
                    portfolioRepo.byOwner
                    == old(portfolioRepo.byOwner)[owner := MemoryPortfolios.RemoveFirst(old(portfolioRepo.byOwner)[owner], portfolioID)])
              && (owner !in old(portfolioRepo.byOwner) ==> portfolioRepo.byOwner == old(portfolioRepo.byOwner))
    ensures r.Fail? ==>
              portfolioRepo.portfolios == old(portfolioRepo.portfolios)
              && portfolioRepo.byOwner == old(portfolioRepo.byOwner)
  {
    var found := portfolioRepo.FindByID(portfolioID);
    if found.Err? {
      return Fail(Wrap("portfolio not found: ", found.error));
    }
    if |found.value.applications| > 0 {
      return Fail(InvalidState("cannot delete portfolio with applications"));
    }
    var d := portfolioRepo.Delete(portfolioID);
    match d {
      case Pass => r := Pass;
      case Fail(e) => r := Fail(Wrap("failed to delete portfolio: ", e));
    }
  }
}
