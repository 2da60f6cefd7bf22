/** The records and enumerations of the governance SDK's domain package
    (model.go, value_objects.go, principles.go, governance_components.go and
    the record types declared in repositories.go), transcribed with the
    fields the modelled operations read or write.

    Time is a whole number of seconds; 0 stands for Go's zero `time.Time`.
    Go's string-typed enumerations become datatypes; where the source has a
    `default:` branch that an arbitrary string can reach, the datatype has an
    extra constructor carrying that string. */
module DomainTypes {

  type ApplicationID = string
  type GovernanceAgreementID = string
  type PortfolioID = string

  /** An instant, in seconds; `ZeroTime` is Go's zero time (`IsZero()`). */
  type Time = int
  /** A length of time, in seconds. */
  type Duration = int

  const ZeroTime: Time := 0
  const Day: Duration := 86400

  /** A Go `time.Duration` value: a signed 64-bit count of nanoseconds. */
  type Nanoseconds = int

  const NanosPerSecond: int := 1_000_000_000
  const MinNanoseconds: Nanoseconds := -0x8000_0000_0000_0000
  const MaxNanoseconds: Nanoseconds := 0x7fff_ffff_ffff_ffff
  const TwoTo64: int := 0x1_0000_0000_0000_0000

  predicate InInt64(x: int)
  {
    MinNanoseconds <= x <= MaxNanoseconds
  }

  /** `time.Since(t)` at instant `now`: the elapsed nanoseconds, saturated
      at the least and greatest `Duration` when they do not fit, as
      `Time.Sub` does. */
  function Since(t: Time, now: Time): (d: Nanoseconds)
    ensures InInt64(d)
    ensures InInt64((now - t) * NanosPerSecond) ==> d == (now - t) * NanosPerSecond
    ensures (now - t) * NanosPerSecond > MaxNanoseconds ==> d == MaxNanoseconds
    ensures (now - t) * NanosPerSecond < MinNanoseconds ==> d == MinNanoseconds
  {
    var exact := (now - t) * NanosPerSecond;
    if exact > MaxNanoseconds then MaxNanoseconds
    else if exact < MinNanoseconds then MinNanoseconds
    else exact
  }

  /** `a + b` on two `Duration`s: two's-complement addition, which wraps
      past either end of the 64-bit range. */
  function AddNanoseconds(a: Nanoseconds, b: Nanoseconds): (r: Nanoseconds)
    requires InInt64(a) && InInt64(b)
    ensures InInt64(r)
    ensures r == a + b || r == a + b - TwoTo64 || r == a + b + TwoTo64
    ensures InInt64(a + b) ==> r == a + b
  {
    if a + b > MaxNanoseconds then a + b - TwoTo64
    else if a + b < MinNanoseconds then a + b + TwoTo64
    else a + b
  }

  // ---------------------------------------------------------------- model.go

  datatype ApplicationStatus =
    | StatusActive
    | StatusDeprecated
    | StatusRetired
    | StatusPlanned
    | StatusUnlisted(name: string)   // any other string, "" included

  datatype SecurityMeasure = SecurityMeasure(name: string, category: string)
  datatype RolePermission = RolePermission(role: string, permissions: seq<string>, resource: string)
  /** Only the SLA's response time is read by the scoring engine. */
  datatype SLA = SLA(serviceName: string, responseTime: Duration)

  datatype SecurityProvisions = SecurityProvisions(
    dataConfidentiality: seq<SecurityMeasure>,
    dataIntegrity: seq<SecurityMeasure>,
    applicationAvailability: SLA,
    applicationAuthenticity: seq<SecurityMeasure>,
    rolesAndPermissions: seq<RolePermission>)

  datatype Functionality = Functionality(id: string, name: string)
  datatype ApplicationCatalogue = ApplicationCatalogue(functionality: seq<Functionality>, lastUpdated: Time)

  datatype Application = Application(
    id: ApplicationID,
    name: string,
    description: string,
    version: string,
    status: ApplicationStatus,
    createdAt: Time,
    updatedAt: Time,
    governanceAgreementID: GovernanceAgreementID,
    catalogue: ApplicationCatalogue,
    securityProvisions: SecurityProvisions)

  const NoSecurityProvisions := SecurityProvisions([], [], SLA("", 0), [], [])

  /** `domain.Application{ID: id}`: every other field at its zero value. */
  function PlaceholderApplication(id: ApplicationID): (a: Application)
  {
    Application(id, "", "", "", StatusUnlisted(""), ZeroTime, ZeroTime, "",
                ApplicationCatalogue([], ZeroTime), NoSecurityProvisions)
  }

  datatype AgreementStatus =
    | AgreementDraft
    | AgreementApproved
    | AgreementActive
    | AgreementSuspended
    | AgreementRetired

  // ------------------------------------------------------- value_objects.go

  datatype RACIEntry = RACIEntry(activity: string, responsible: string, accountable: string,
                                 consulted: string, informed: string)
  datatype ResponsibilityMatrix = ResponsibilityMatrix(entries: seq<RACIEntry>)

  datatype KPI = KPI(id: string, name: string, description: string, target: real,
                     unit: string, category: string, frequency: string)

  // ------------------------------------------------- governance_components.go
  // Strategy, Acquisition, Performance and Implementation are only stored and
  // replaced wholesale; their content is carried as a list of named entries.

  datatype Strategy = Strategy(entries: seq<string>)
  datatype Acquisition = Acquisition(entries: seq<string>)
  datatype Performance = Performance(entries: seq<string>)
  datatype Implementation = Implementation(entries: seq<string>)

  datatype ComplianceMonitoring = ComplianceMonitoring(
    monitoringFrequency: string, responsibleParties: seq<string>, reportingSchedule: string)
  datatype Conformance = Conformance(requirements: seq<string>, complianceMonitoring: ComplianceMonitoring)

  // ------------------------------------------------------------ principles.go

  datatype KPIMeasurement = KPIMeasurement(kpiID: string, value: real, target: real,
                                           achieved: bool, measuredAt: Time, notes: string)

  datatype EvaluatePrinciple = EvaluatePrinciple(performanceMetrics: seq<KPIMeasurement>, lastEvaluated: Time)

  datatype StrategicObjective = StrategicObjective(id: string, name: string, description: string, deadline: Time)
  datatype StrategicInitiative = StrategicInitiative(id: string, name: string, owner: string, deadline: Time)
  datatype StrategicDirection = StrategicDirection(
    vision: string, mission: string,
    objectives: seq<StrategicObjective>, initiatives: seq<StrategicInitiative>)

  datatype BudgetAllocation = BudgetAllocation(category: string, timeframe: string, justification: string)
  datatype PersonnelAllocation = PersonnelAllocation(role: string, count: int, skillLevel: string)
  datatype TechnologyAllocation = TechnologyAllocation(technology: string, purpose: string)
  datatype ResourceAllocation = ResourceAllocation(
    budgetAllocations: seq<BudgetAllocation>,
    personnelAllocations: seq<PersonnelAllocation>,
    technologyAllocations: seq<TechnologyAllocation>)

  datatype Policy = Policy(id: string, name: string)
  datatype Standard = Standard(id: string, name: string)
  datatype Procedure = Procedure(id: string, name: string)
  datatype Guideline = Guideline(id: string, name: string)
  datatype PolicyFramework = PolicyFramework(
    policies: seq<Policy>, standards: seq<Standard>,
    procedures: seq<Procedure>, guidelines: seq<Guideline>)

  datatype ActionStatus = ActionPending | ActionInProgress | ActionCompleted | ActionCancelled
  datatype Action = Action(id: string, description: string, responsible: string,
                           deadline: Time, status: ActionStatus)
  datatype ActionPlan = ActionPlan(id: string, name: string, description: string,
                                   actions: seq<Action>, owner: string,
                                   deadline: Time, status: ActionStatus)

  datatype DirectPrinciple = DirectPrinciple(
    strategicDirection: StrategicDirection,
    resourceAllocation: ResourceAllocation,
    policyFramework: PolicyFramework,
    actionPlans: seq<ActionPlan>,
    lastDirected: Time)

  datatype GovernanceAgreement = GovernanceAgreement(
    id: GovernanceAgreementID,
    applicationID: ApplicationID,
    title: string,
    version: string,
    status: AgreementStatus,
    createdAt: Time,
    updatedAt: Time,
    responsibilityMatrix: ResponsibilityMatrix,
    strategy: Strategy,
    acquisition: Acquisition,
    performance: Performance,
    conformance: Conformance,
    implementation: Implementation,
    evaluate: EvaluatePrinciple,
    direct: DirectPrinciple)

  const NoComplianceMonitoring := ComplianceMonitoring("", [], "")
  const NoDirection := DirectPrinciple(
    StrategicDirection("", "", [], []),
    ResourceAllocation([], [], []),
    PolicyFramework([], [], [], []),
    [], ZeroTime)

  datatype ApplicationPortfolio = ApplicationPortfolio(
    id: PortfolioID,
    name: string,
    description: string,
    owner: string,
    applications: seq<Application>,
    kpis: seq<KPI>,
    createdAt: Time,
    updatedAt: Time)

  // Assessment results (principles.go).  Every TechnicalHealth and
  // BusinessValueAssessment number the engine produces is a whole number, so
  // the float64 fields of the source are ints here.

  datatype TechnicalHealth = TechnicalHealth(
    codeQuality: int, documentation: int, testCoverage: int,
    securityScore: int, performanceScore: int)

  datatype BusinessValueAssessment = BusinessValueAssessment(
    businessAlignment: int, costEfficiency: int, userSatisfaction: int)

  datatype RiskLevel = RiskLow | RiskMedium | RiskHigh | RiskCritical | RiskLevelUnlisted(name: string)

  datatype RecommendationType = RecModernize | RecReplace | RecEnhance | RecRetire | RecMaintain
  datatype Priority = PriorityCritical | PriorityHigh | PriorityMedium | PriorityLow | PriorityUnlisted(name: string)

  datatype Recommendation = Recommendation(
    id: string, recType: RecommendationType, description: string,
    priority: Priority, estimatedEffortHours: int, businessImpact: string)

  datatype ApplicationAssessment = ApplicationAssessment(
    applicationID: ApplicationID,
    technicalHealth: TechnicalHealth,
    businessValue: BusinessValueAssessment,
    riskLevel: RiskLevel,
    recommendations: seq<Recommendation>)

  datatype PortfolioHealthAssessment = PortfolioHealthAssessment(
    totalApplications: int,
    activeApplications: int,
    deprecatedApplications: int,
    redundantApplications: int,
    totalCost: int,
    averageApplicationAge: Nanoseconds,
    riskDistribution: map<RiskLevel, int>)

  datatype RiskImpact = ImpactLow | ImpactMedium | ImpactHigh | ImpactCritical | ImpactUnlisted(name: string)

  datatype Risk = Risk(id: string, name: string, description: string, category: string,
                       probability: real, impact: RiskImpact, level: RiskLevel)

  datatype RiskStatus = RiskStatusNormal | RiskStatusWarning | RiskStatusCritical
  datatype RiskIndicator = RiskIndicator(name: string, value: real, threshold: real, status: RiskStatus)
  /** Heat maps and mitigation tracking are always empty lists in the source. */
  datatype RiskMonitoring = RiskMonitoring(riskIndicators: seq<RiskIndicator>)

  // ------------------------------------------- change management records
  // (declared in repositories.go)

  datatype ChangeRequestStatus =
    | ChangeStatusDraft | ChangeStatusSubmitted | ChangeStatusApproved
    | ChangeStatusRejected | ChangeStatusImplemented | ChangeStatusClosed

  datatype ApprovalStatus = ApprovalPending | ApprovalApproved | ApprovalRejected
  datatype Approval = Approval(approver: string, role: string, status: ApprovalStatus,
                               comments: string, approvedAt: Time)

  datatype ChangeRequest = ChangeRequest(
    id: string, applicationID: ApplicationID, requester: string,
    changeType: string, priority: Priority, status: ChangeRequestStatus,
    title: string, description: string, businessCase: string,
    impact: string, risk: string, approvals: seq<Approval>,
    createdAt: Time, updatedAt: Time)

  datatype IncidentStatus = IncidentStatusOpen | IncidentStatusInvestigating
                          | IncidentStatusResolved | IncidentStatusClosed

  datatype Incident = Incident(
    id: string, applicationID: ApplicationID, reporter: string, severity: int,
    status: IncidentStatus, title: string, description: string, impact: string,
    rootCause: string, resolution: string, timeToResolve: Nanoseconds,
    createdAt: Time, updatedAt: Time, resolvedAt: Time)

  datatype AuditStatus = AuditStatusPlanned | AuditStatusInProgress
                       | AuditStatusCompleted | AuditStatusOverdue

  datatype AuditFinding = AuditFinding(id: string, severity: string, category: string,
                                       description: string, evidence: string, remediation: string)

  datatype Audit = Audit(
    id: string, applicationID: ApplicationID, auditor: string, auditType: string,
    status: AuditStatus, scope: string, findings: seq<AuditFinding>,
    recommendations: seq<string>, startedAt: Time, completedAt: Time)
}
