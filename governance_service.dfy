/** The governance application service (application/governance_service.go):
    creating agreements, replacing their components, the approval and
    activation steps of their lifecycle, and thin wrappers that prefix the
    errors of the evaluation, direction and monitoring principles. */
module GovernanceService {
  import opened Wrappers
  import opened DomainTypes
  import opened Events
  import Aggregates
  import MemoryApplications
  import MemoryGovernance
  import MemoryPortfolios
  import MemoryEvents
  import Publishing
  import EvaluationService
  import DirectionService
  import MonitoringService

  const NotFoundPrefix := "governance agreement not found: "

  /** What a lookup of a missing agreement reports through this service. */
  const MissingAgreement := Wrap(NotFoundPrefix, NotFound("governance agreement not found"))

  /** `CreateGovernanceAgreement`: the application must be stored; then the
      aggregate's Draft agreement is saved, overwriting any agreement with
      the same ID, and its creation event is published. */
  method CreateGovernanceAgreement(agreementRepo: MemoryGovernance.GovernanceRepository,
                                   appRepo: MemoryApplications.ApplicationRepository,
                                   eventRepo: MemoryEvents.EventRepository,
                                   id: GovernanceAgreementID, applicationID: ApplicationID, title: string, now: Time)
    returns (r: Result<GovernanceAgreement>)
    requires agreementRepo.Valid()
    modifies agreementRepo, eventRepo
    ensures agreementRepo.Valid()
    ensures r.Ok? <==> applicationID in appRepo.applications
                       && Aggregates.AgreementArgumentsError(id, applicationID, title).None?
    ensures applicationID !in appRepo.applications ==>
              r == Err(Wrap("application not found: ", NotFound("application not found")))
    ensures applicationID in appRepo.applications && Aggregates.AgreementArgumentsError(id, applicationID, title).Some? ==>
              r == Err(Wrap("failed to create governance agreement aggregate: ",
                            Aggregates.AgreementArgumentsError(id, applicationID, title).value))
    ensures r.Ok? ==>
              r.value == Aggregates.DraftAgreement(id, applicationID, title, now)
              && agreementRepo.agreements == old(agreementRepo.agreements)[id := r.value]
              && agreementRepo.byApplication == old(agreementRepo.byApplication)[applicationID := id]
              && agreementRepo.AgreementFor(applicationID) == Ok(r.value)
              && eventRepo.events == old(eventRepo.events) + [GovernanceAgreementCreated(id, applicationID, title, now)]
    ensures r.Err? ==>
              agreementRepo.agreements == old(agreementRepo.agreements)
              && agreementRepo.byApplication == old(agreementRepo.byApplication)
              && eventRepo.events == old(eventRepo.events)
  {
    var app := appRepo.FindByID(applicationID);
    if app.Err? {
      return Err(Wrap("application not found: ", app.error));
    }
    var a := Aggregates.NewGovernanceAgreementAggregate(id, applicationID, title, now);
    if a.Err? {
      return Err(Wrap("failed to create governance agreement aggregate: ", a.error));
    }
    var agreement := a.value.agreement;
    agreementRepo.Save(agreement);
    Publishing.PublishAll(eventRepo, a.value.domainEvents);
    r := Ok(agreement);
  }

  /** `UpdateStrategy`: replace the stored agreement's strategy. Unlike the
      aggregate's setter, the service neither stamps `updatedAt` nor raises
      an event. */
  method UpdateStrategy(agreementRepo: MemoryGovernance.GovernanceRepository, agreementID: GovernanceAgreementID,
                        strategy: Strategy)
    returns (r: Outcome)
    requires agreementRepo.Valid()
    modifies agreementRepo
    ensures agreementRepo.Valid() && agreementRepo.byApplication == old(agreementRepo.byApplication)
    ensures r.Pass? <==> agreementID in old(agreementRepo.agreements)
    ensures r.Pass? ==>
              agreementRepo.agreements == old(agreementRepo.agreements)[agreementID :=
                old(agreementRepo.agreements)[agreementID].(strategy := strategy)]
    ensures r.Fail? ==> r == Fail(MissingAgreement) && agreementRepo.agreements == old(agreementRepo.agreements)
  {
    var g := agreementRepo.FindByID(agreementID);
    if g.Err? {
      return Fail(Wrap(NotFoundPrefix, g.error));
    }
    var u := agreementRepo.Update(g.value.(strategy := strategy));
    match u {
      case Pass => r := Pass;
      case Fail(e) => r := Fail(Wrap("failed to update strategy: ", e));
    }
  }

  /** `UpdateAcquisition`: replace the stored agreement's acquisition. */
  method UpdateAcquisition(agreementRepo: MemoryGovernance.GovernanceRepository, agreementID: GovernanceAgreementID,
                           acquisition: Acquisition)
    returns (r: Outcome)
    requires agreementRepo.Valid()
    modifies agreementRepo
    ensures agreementRepo.Valid() && agreementRepo.byApplication == old(agreementRepo.byApplication)
    ensures r.Pass? <==> agreementID in old(agreementRepo.agreements)
    ensures r.Pass? ==>
              agreementRepo.agreements == old(agreementRepo.agreements)[agreementID :=
                old(agreementRepo.agreements)[agreementID].(acquisition := acquisition)]
    ensures r.Fail? ==> r == Fail(MissingAgreement) && agreementRepo.agreements == old(agreementRepo.agreements)
  {
    var g := agreementRepo.FindByID(agreementID);
    if g.Err? {
      return Fail(Wrap(NotFoundPrefix, g.error));
    }
    var u := agreementRepo.Update(g.value.(acquisition := acquisition));
    match u {
      case Pass => r := Pass;
      case Fail(e) => r := Fail(Wrap("failed to update acquisition: ", e));
    }
  }

  /** `UpdatePerformance`: replace the stored agreement's performance component. */
  method UpdatePerformance(agreementRepo: MemoryGovernance.GovernanceRepository, agreementID: GovernanceAgreementID,
                           performance: Performance)
    returns (r: Outcome)
    requires agreementRepo.Valid()
    modifies agreementRepo
    ensures agreementRepo.Valid() && agreementRepo.byApplication == old(agreementRepo.byApplication)
    ensures r.Pass? <==> agreementID in old(agreementRepo.agreements)
    ensures r.Pass? ==>
              agreementRepo.agreements == old(agreementRepo.agreements)[agreementID :=
                old(agreementRepo.agreements)[agreementID].(performance := performance)]
    ensures r.Fail? ==> r == Fail(MissingAgreement) && agreementRepo.agreements == old(agreementRepo.agreements)
  {
    var g := agreementRepo.FindByID(agreementID);
    if g.Err? {
      return Fail(Wrap(NotFoundPrefix, g.error));
    }
    var u := agreementRepo.Update(g.value.(performance := performance));
    match u {
      case Pass => r := Pass;
      case Fail(e) => r := Fail(Wrap("failed to update performance: ", e));
    }
  }

  /** `UpdateConformance`: replace the stored agreement's conformance component. */
  method UpdateConformance(agreementRepo: MemoryGovernance.GovernanceRepository, agreementID: GovernanceAgreementID,
                           conformance: Conformance)
    returns (r: Outcome)
    requires agreementRepo.Valid()
    modifies agreementRepo
    ensures agreementRepo.Valid() && agreementRepo.byApplication == old(agreementRepo.byApplication)
    ensures r.Pass? <==> agreementID in old(agreementRepo.agreements)
    ensures r.Pass? ==>
              agreementRepo.agreements == old(agreementRepo.agreements)[agreementID :=
                old(agreementRepo.agreements)[agreementID].(conformance := conformance)]
    ensures r.Fail? ==> r == Fail(MissingAgreement) && agreementRepo.agreements == old(agreementRepo.agreements)
  {
    var g := agreementRepo.FindByID(agreementID);
    if g.Err? {
      return Fail(Wrap(NotFoundPrefix, g.error));
    }
    var u := agreementRepo.Update(g.value.(conformance := conformance));
    match u {
      case Pass => r := Pass;
      case Fail(e) => r := Fail(Wrap("failed to update conformance: ", e));
    }
  }

  /** `UpdateImplementation`: replace the stored agreement's implementation component. */
  method UpdateImplementation(agreementRepo: MemoryGovernance.GovernanceRepository, agreementID: GovernanceAgreementID,
                              implementation: Implementation)
    returns (r: Outcome)
    requires agreementRepo.Valid()
    modifies agreementRepo
    ensures agreementRepo.Valid() && agreementRepo.byApplication == old(agreementRepo.byApplication)
    ensures r.Pass? <==> agreementID in old(agreementRepo.agreements)
    ensures r.Pass? ==>
              agreementRepo.agreements == old(agreementRepo.agreements)[agreementID :=
                old(agreementRepo.agreements)[agreementID].(implementation := implementation)]
    ensures r.Fail? ==> r == Fail(MissingAgreement) && agreementRepo.agreements == old(agreementRepo.agreements)
  {
    var g := agreementRepo.FindByID(agreementID);
    if g.Err? {
      return Fail(Wrap(NotFoundPrefix, g.error));
    }
    var u := agreementRepo.Update(g.value.(implementation := implementation));
    match u {
      case Pass => r := Pass;
      case Fail(e) => r := Fail(Wrap("failed to update implementation: ", e));
    }
  }

  /** `ApproveGovernanceAgreement`: a stored Draft agreement becomes
      Approved, stamped `now`, and an approval event is saved; otherwise
      nothing is written. The stored status follows the aggregate's
      transition rule. */
  method ApproveGovernanceAgreement(agreementRepo: MemoryGovernance.GovernanceRepository,
                                    eventRepo: MemoryEvents.EventRepository,
                                    agreementID: GovernanceAgreementID, now: Time)
    returns (r: Outcome)
    requires agreementRepo.Valid()
    modifies agreementRepo, eventRepo
    ensures agreementRepo.Valid() && agreementRepo.byApplication == old(agreementRepo.byApplication)
    ensures r.Pass? <==> agreementID in old(agreementRepo.agreements)
                         && old(agreementRepo.agreements)[agreementID].status == AgreementDraft
    ensures agreementID in old(agreementRepo.agreements) ==>
              agreementID in agreementRepo.agreements && agreementRepo.agreements[agreementID].status ==
                Aggregates.Step(old(agreementRepo.agreements)[agreementID].status, Aggregates.Approve)
    ensures r.Pass? ==>
              agreementRepo.agreements == old(agreementRepo.agreements)[agreementID :=
                old(agreementRepo.agreements)[agreementID].(status := AgreementApproved, updatedAt := now)]
              && eventRepo.events == old(eventRepo.events) + [GovernanceAgreementApproved(agreementID, now)]
    ensures agreementID !in old(agreementRepo.agreements) ==> r == Fail(MissingAgreement)
    ensures agreementID in old(agreementRepo.agreements) && old(agreementRepo.agreements)[agreementID].status != AgreementDraft ==>
              r == Fail(InvalidState("only draft agreements can be approved"))
    ensures r.Fail? ==> agreementRepo.agreements == old(agreementRepo.agreements) && eventRepo.events == old(eventRepo.events)
  {
    var g := agreementRepo.FindByID(agreementID);
    if g.Err? {
      return Fail(Wrap(NotFoundPrefix, g.error));
    }
    if g.value.status != AgreementDraft {
      return Fail(InvalidState("only draft agreements can be approved"));
    }
    var u := agreementRepo.Update(g.value.(status := AgreementApproved, updatedAt := now));
    match u {
      case Pass =>
        eventRepo.Save(GovernanceAgreementApproved(agreementID, now));
        r := Pass;
      case Fail(e) =>
        r := Fail(Wrap("failed to save approved agreement: ", e));
    }
  }

  /** `ActivateGovernanceAgreement`: a stored Approved agreement becomes
      Active, stamped `now`, and an activation event is saved; otherwise
      nothing is written. */
  method ActivateGovernanceAgreement(agreementRepo: MemoryGovernance.GovernanceRepository,
                                     eventRepo: MemoryEvents.EventRepository,
                                     agreementID: GovernanceAgreementID, now: Time)
    returns (r: Outcome)
    requires agreementRepo.Valid()
    modifies agreementRepo, eventRepo
    ensures agreementRepo.Valid() && agreementRepo.byApplication == old(agreementRepo.byApplication)
    ensures r.Pass? <==> agreementID in old(agreementRepo.agreements)
                         && old(agreementRepo.agreements)[agreementID].status == AgreementApproved
    ensures agreementID in old(agreementRepo.agreements) ==>
              agreementID in agreementRepo.agreements && agreementRepo.agreements[agreementID].status ==
                Aggregates.Step(old(agreementRepo.agreements)[agreementID].status, Aggregates.Activate)
    ensures r.Pass? ==>
              agreementRepo.agreements == old(agreementRepo.agreements)[agreementID :=
                old(agreementRepo.agreements)[agreementID].(status := AgreementActive, updatedAt := now)]
              && eventRepo.events == old(eventRepo.events) + [GovernanceAgreementActivated(agreementID, now)]
    ensures agreementID !in old(agreementRepo.agreements) ==> r == Fail(MissingAgreement)
    ensures agreementID in old(agreementRepo.agreements) && old(agreementRepo.agreements)[agreementID].status != AgreementApproved ==>
              r == Fail(InvalidState("only approved agreements can be activated"))
    ensures r.Fail? ==> agreementRepo.agreements == old(agreementRepo.agreements) && eventRepo.events == old(eventRepo.events)
  {
    var g := agreementRepo.FindByID(agreementID);
    if g.Err? {
      return Fail(Wrap(NotFoundPrefix, g.error));
    }
    if g.value.status != AgreementApproved {
      return Fail(InvalidState("only approved agreements can be activated"));
    }
    var u := agreementRepo.Update(g.value.(status := AgreementActive, updatedAt := now));
    match u {
      case Pass =>
        eventRepo.Save(GovernanceAgreementActivated(agreementID, now));
        r := Pass;
      case Fail(e) =>
        r := Fail(Wrap("failed to save activated agreement: ", e));
    }
  }

  /** `EvaluateApplication`: the evaluation principle's answer, its error
      prefixed. */
  method EvaluateApplication(appRepo: MemoryApplications.ApplicationRepository,
                             agreementRepo: MemoryGovernance.GovernanceRepository,
                             appID: ApplicationID, evaluator: string, now: Time)
    returns (r: Result<ApplicationAssessment>)
    requires appRepo.Valid()
    ensures var e := EvaluationService.EvaluationOf(appRepo.applications, agreementRepo.agreements,
                                                    agreementRepo.byApplication, appID, now);
            && (r.Ok? <==> e.Ok?)
            && (r.Ok? ==> r == e)
            && (r.Err? ==> r.error == Wrap("failed to evaluate application: ", e.error))
  {
    var a := EvaluationService.EvaluateApplication(appRepo, agreementRepo, appID, evaluator, now);
    if a.Err? {
      return Err(Wrap("failed to evaluate application: ", a.error));
    }
    r := a;
  }

  /** `EvaluatePortfolio`: the evaluation principle's portfolio roll-up, its
      error prefixed. */
  method EvaluatePortfolio(portfolioRepo: MemoryPortfolios.PortfolioRepository,
                           appRepo: MemoryApplications.ApplicationRepository,
                           agreementRepo: MemoryGovernance.GovernanceRepository,
                           portfolioID: PortfolioID, now: Time)
    returns (r: Result<PortfolioHealthAssessment>)
    requires appRepo.Valid()
    ensures r.Ok? <==> portfolioID in portfolioRepo.portfolios
    ensures r.Err? ==>
              r == Err(Wrap("failed to evaluate portfolio: ", NotFound("failed to find portfolio: portfolio not found")))
    ensures r.Ok? ==>
              var apps := portfolioRepo.portfolios[portfolioID].applications;
              var t := EvaluationService.TallyOf(apps, EvaluationService.RiskLevels(
                         appRepo.applications, agreementRepo.agreements, agreementRepo.byApplication, now));
              r.value == PortfolioHealthAssessment(|apps|, t.active, t.deprecated, 0, 0,
                                                                     EvaluationService.AverageAge(apps, now),
                                                                     t.distribution)
  {
    var a := EvaluationService.EvaluatePortfolio(portfolioRepo, appRepo, agreementRepo, portfolioID, now);
    if a.Err? {
      return Err(Wrap("failed to evaluate portfolio: ", a.error));
    }
    r := a;
  }

  /** `SetStrategicDirection`: the direction principle's setter, its error
      prefixed. */
  method SetStrategicDirection(agreementRepo: MemoryGovernance.GovernanceRepository, agreementID: GovernanceAgreementID,
                               director: string, objectives: seq<StrategicObjective>,
                               initiatives: seq<StrategicInitiative>, now: Time)
    returns (r: Outcome)
    requires agreementRepo.Valid()
    modifies agreementRepo
    ensures agreementRepo.Valid() && agreementRepo.byApplication == old(agreementRepo.byApplication)
    ensures r.Pass? <==> agreementID in old(agreementRepo.agreements)
    ensures r.Pass? ==>
              agreementRepo.agreements == old(agreementRepo.agreements)[agreementID :=
                DirectionService.Directed(old(agreementRepo.agreements)[agreementID], objectives, initiatives, now)]
    ensures r.Fail? ==>
              r == Fail(Wrap("failed to set strategic direction: ",
                             NotFound(DirectionService.FindFailure + "governance agreement not found")))
              && agreementRepo.agreements == old(agreementRepo.agreements)
  {
    var d := DirectionService.SetStrategicDirection(agreementRepo, agreementID, director, objectives, initiatives, now);
    match d {
      case Pass => r := Pass;
      case Fail(e) => r := Fail(Wrap("failed to set strategic direction: ", e));
    }
  }

  /** `AllocateResources`: the direction principle's setter, its error
      prefixed. */
  method AllocateResources(agreementRepo: MemoryGovernance.GovernanceRepository, agreementID: GovernanceAgreementID,
                           budget: seq<BudgetAllocation>, personnel: seq<PersonnelAllocation>, now: Time)
    returns (r: Outcome)
    requires agreementRepo.Valid()
    modifies agreementRepo
    ensures agreementRepo.Valid() && agreementRepo.byApplication == old(agreementRepo.byApplication)
    ensures r.Pass? <==> agreementID in old(agreementRepo.agreements)
    ensures r.Pass? ==>
              agreementRepo.agreements == old(agreementRepo.agreements)[agreementID :=
                DirectionService.Allocated(old(agreementRepo.agreements)[agreementID], budget, personnel, now)]
    ensures r.Fail? ==>
              r == Fail(Wrap("failed to allocate resources: ",
                             NotFound(DirectionService.FindFailure + "governance agreement not found")))
              && agreementRepo.agreements == old(agreementRepo.agreements)
  {
    var d := DirectionService.AllocateResources(agreementRepo, agreementID, budget, personnel, now);
    match d {
      case Pass => r := Pass;
      case Fail(e) => r := Fail(Wrap("failed to allocate resources: ", e));
    }
  }

  /** `EstablishPolicies`: the direction principle's setter, its error
      prefixed. */
  method EstablishPolicies(agreementRepo: MemoryGovernance.GovernanceRepository, agreementID: GovernanceAgreementID,
                           policies: seq<Policy>, standards: seq<Standard>, procedures: seq<Procedure>)
    returns (r: Outcome)
    requires agreementRepo.Valid()
    modifies agreementRepo
    ensures agreementRepo.Valid() && agreementRepo.byApplication == old(agreementRepo.byApplication)
    ensures r.Pass? <==> agreementID in old(agreementRepo.agreements)
    ensures r.Pass? ==>
              agreementRepo.agreements == old(agreementRepo.agreements)[agreementID :=
                DirectionService.WithPolicies(old(agreementRepo.agreements)[agreementID], policies, standards, procedures)]
    ensures r.Fail? ==>
              r == Fail(Wrap("failed to establish policies: ",
                             NotFound(DirectionService.FindFailure + "governance agreement not found")))
              && agreementRepo.agreements == old(agreementRepo.agreements)
  {
    var d := DirectionService.EstablishPolicies(agreementRepo, agreementID, policies, standards, procedures);
    match d {
      case Pass => r := Pass;
      case Fail(e) => r := Fail(Wrap("failed to establish policies: ", e));
    }
  }

  /** What one monitoring round reports: the KPI measurements, the
      compliance configuration and the risk indicators. */
  datatype GovernanceMonitoringResult = GovernanceMonitoringResult(
    kpiMeasurements: seq<KPIMeasurement>,
    complianceStatus: ComplianceMonitoring,
    riskStatus: RiskMonitoring)

  /** `MonitorGovernance`: run the three monitors in order and stop at the
      first failure, its error prefixed with the monitor's name; otherwise
      carry exactly their three answers. */
  method MonitorGovernance(agreementRepo: MemoryGovernance.GovernanceRepository, agreementID: GovernanceAgreementID,
                           kpiRepo: Option<Result<seq<KPI>>>, measurementRepo: Option<map<string, KPIMeasurement>>,
                           riskRepo: Option<Result<seq<Risk>>>, now: Time)
    returns (r: Result<GovernanceMonitoringResult>)
    ensures var k := MonitoringService.KPIMeasurementsOf(agreementRepo.agreements, agreementID, kpiRepo,
                                                         measurementRepo, now);
            var c := MonitoringService.ComplianceOf(agreementRepo.agreements, agreementID);
            var m := MonitoringService.RiskMonitoringOf(riskRepo);
            && (r.Ok? <==> k.Ok? && c.Ok? && m.Ok?)
            && (k.Err? ==> r == Err(Wrap("failed to monitor KPIs: ", k.error)))
            && (k.Ok? && c.Err? ==> r == Err(Wrap("failed to monitor compliance: ", c.error)))
            && (k.Ok? && c.Ok? && m.Err? ==> r == Err(Wrap("failed to monitor risks: ", m.error)))
            && (r.Ok? ==> r.value == GovernanceMonitoringResult(k.value, c.value, m.value))
  {
    var kpis := MonitoringService.MonitorKPIs(agreementRepo, agreementID, kpiRepo, measurementRepo, now);
    if kpis.Err? {
      return Err(Wrap("failed to monitor KPIs: ", kpis.error));
    }
    var compliance := MonitoringService.MonitorCompliance(agreementRepo, agreementID);
    match compliance {
      case Err(e) =>
        return Err(Wrap("failed to monitor compliance: ", e));
      case Ok(c) =>
        var risks := MonitoringService.MonitorRisks(riskRepo, agreementID);
        if risks.Err? {
          return Err(Wrap("failed to monitor risks: ", risks.error));
        }
        r := Ok(GovernanceMonitoringResult(kpis.value, c, risks.value));
    }
  }

  /** A monitoring round never fails at the compliance step, and without a
      configured risk store it fails only when the KPI step does. */
  lemma MonitoringFailsOnlyAtKPIsOrRisks(agreements: map<GovernanceAgreementID, GovernanceAgreement>,
                                         agreementID: GovernanceAgreementID, kpiRepo: Option<Result<seq<KPI>>>,
                                         measurementRepo: Option<map<string, KPIMeasurement>>, now: Time)
    ensures var k := MonitoringService.KPIMeasurementsOf(agreements, agreementID, kpiRepo, measurementRepo, now);
            && (k.Ok? ==> MonitoringService.ComplianceOf(agreements, agreementID).Ok?)
            && MonitoringService.RiskMonitoringOf(None).Ok?
  {
    var k := MonitoringService.KPIMeasurementsOf(agreements, agreementID, kpiRepo, measurementRepo, now);
    if k.Ok? {
      MonitoringService.ComplianceFollowsKPIs(agreements, agreementID, kpiRepo, measurementRepo, now);
    }
  }

  /** `GetGovernanceAgreement`: the stored agreement, or the lookup error
      prefixed. */
  method GetGovernanceAgreement(agreementRepo: MemoryGovernance.GovernanceRepository, agreementID: GovernanceAgreementID)
    returns (r: Result<GovernanceAgreement>)
    ensures r.Ok? <==> agreementID in agreementRepo.agreements
    ensures r.Ok? ==> r.value == agreementRepo.agreements[agreementID]
    ensures r.Err? ==> r.error == Wrap("failed to get governance agreement: ", NotFound("governance agreement not found"))
  {
    var g := agreementRepo.FindByID(agreementID);
    if g.Err? {
      return Err(Wrap("failed to get governance agreement: ", g.error));
    }
    r := Ok(g.value);
  }
}
