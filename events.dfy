/** The domain events of events.go.  Go models them as seventeen struct
    types behind the `DomainEvent` interface (`EventType()` and `Time()`);
    here they are the seventeen constructors of one datatype, every one with
    the shared field `occurredAt` that `Time()` returns. */
module Events {
  import opened DomainTypes

  datatype DomainEvent =
    | PortfolioCreated(portfolioID: PortfolioID, name: string, owner: string, occurredAt: Time)
    | ApplicationAddedToPortfolio(portfolioID: PortfolioID, applicationID: ApplicationID,
                                  applicationName: string, agreementID: GovernanceAgreementID,
                                  occurredAt: Time)
    | ApplicationRemovedFromPortfolio(portfolioID: PortfolioID, applicationID: ApplicationID,
                                      applicationName: string, occurredAt: Time)
    | ApplicationUpdated(portfolioID: PortfolioID, applicationID: ApplicationID,
                         applicationName: string, occurredAt: Time)
    | GovernanceAgreementCreated(agreementID: GovernanceAgreementID, applicationID: ApplicationID,
                                 title: string, occurredAt: Time)
    | GovernanceAgreementUpdated(agreementID: GovernanceAgreementID, component: string, occurredAt: Time)
    | GovernanceAgreementApproved(agreementID: GovernanceAgreementID, occurredAt: Time)
    | GovernanceAgreementActivated(agreementID: GovernanceAgreementID, occurredAt: Time)
    | GovernanceEvaluationCompleted(agreementID: GovernanceAgreementID, evaluator: string,
                                    findings: seq<string>, recommendations: seq<string>,
                                    occurredAt: Time)
    | GovernanceDirectionSet(agreementID: GovernanceAgreementID, director: string,
                             objectives: seq<string>, actionPlans: seq<string>, occurredAt: Time)
    | GovernanceMonitoringCompleted(agreementID: GovernanceAgreementID, monitor: string,
                                    kpiMeasurements: seq<string>, complianceStatus: string,
                                    riskStatus: string, occurredAt: Time)
    | ChangeRequestCreated(changeRequestID: string, applicationID: ApplicationID, requester: string,
                           changeType: string, priority: Priority, description: string,
                           occurredAt: Time)
    | ChangeRequestApproved(changeRequestID: string, approver: string, occurredAt: Time)
    | IncidentReported(incidentID: string, applicationID: ApplicationID, reporter: string,
                       severity: int, description: string, occurredAt: Time)
    | IncidentResolved(incidentID: string, resolver: string, resolution: string,
                       timeToResolve: Nanoseconds, occurredAt: Time)
    | ComplianceViolationDetected(violationID: string, applicationID: ApplicationID,
                                  requirementType: string, description: string,
                                  violationSeverity: string, occurredAt: Time)
    | AuditCompleted(auditID: string, applicationID: ApplicationID, auditor: string,
                     scope: string, findings: seq<string>, status: string, occurredAt: Time)

  /** The `EventType()` strings, in declaration order. */
  const EventTypeNames: seq<string> := [
    "PortfolioCreated", "ApplicationAddedToPortfolio", "ApplicationRemovedFromPortfolio",
    "ApplicationUpdated", "GovernanceAgreementCreated", "GovernanceAgreementUpdated",
    "GovernanceAgreementApproved", "GovernanceAgreementActivated",
    "GovernanceEvaluationCompleted", "GovernanceDirectionSet", "GovernanceMonitoringCompleted",
    "ChangeRequestCreated", "ChangeRequestApproved", "IncidentReported", "IncidentResolved",
    "ComplianceViolationDetected", "AuditCompleted"]

  /** The position of an event's variant in the declaration order above. */
  function Kind(e: DomainEvent): (k: nat)
    ensures k < |EventTypeNames|
  {
    match e
    case PortfolioCreated(_, _, _, _) => 0
    case ApplicationAddedToPortfolio(_, _, _, _, _) => 1
    case ApplicationRemovedFromPortfolio(_, _, _, _) => 2
    case ApplicationUpdated(_, _, _, _) => 3
    case GovernanceAgreementCreated(_, _, _, _) => 4
    case GovernanceAgreementUpdated(_, _, _) => 5
    case GovernanceAgreementApproved(_, _) => 6
    case GovernanceAgreementActivated(_, _) => 7
    case GovernanceEvaluationCompleted(_, _, _, _, _) => 8
    case GovernanceDirectionSet(_, _, _, _, _) => 9
    case GovernanceMonitoringCompleted(_, _, _, _, _, _) => 10
    case ChangeRequestCreated(_, _, _, _, _, _, _) => 11
    case ChangeRequestApproved(_, _, _) => 12
    case IncidentReported(_, _, _, _, _, _) => 13
    case IncidentResolved(_, _, _, _, _) => 14
    case ComplianceViolationDetected(_, _, _, _, _, _) => 15
    case AuditCompleted(_, _, _, _, _, _, _) => 16
  }

  /** `EventType()`: the name under which the event's variant is stored and queried. */
  function EventType(e: DomainEvent): (t: string)
    ensures t == EventTypeNames[Kind(e)]
  {
    match e
    case PortfolioCreated(_, _, _, _) => "PortfolioCreated"
    case ApplicationAddedToPortfolio(_, _, _, _, _) => "ApplicationAddedToPortfolio"
    case ApplicationRemovedFromPortfolio(_, _, _, _) => "ApplicationRemovedFromPortfolio"
    case ApplicationUpdated(_, _, _, _) => "ApplicationUpdated"
    case GovernanceAgreementCreated(_, _, _, _) => "GovernanceAgreementCreated"
    case GovernanceAgreementUpdated(_, _, _) => "GovernanceAgreementUpdated"
    case GovernanceAgreementApproved(_, _) => "GovernanceAgreementApproved"
    case GovernanceAgreementActivated(_, _) => "GovernanceAgreementActivated"
    case GovernanceEvaluationCompleted(_, _, _, _, _) => "GovernanceEvaluationCompleted"
    case GovernanceDirectionSet(_, _, _, _, _) => "GovernanceDirectionSet"
    case GovernanceMonitoringCompleted(_, _, _, _, _, _) => "GovernanceMonitoringCompleted"
    case ChangeRequestCreated(_, _, _, _, _, _, _) => "ChangeRequestCreated"
    case ChangeRequestApproved(_, _, _) => "ChangeRequestApproved"
    case IncidentReported(_, _, _, _, _, _) => "IncidentReported"
    case IncidentResolved(_, _, _, _, _) => "IncidentResolved"
    case ComplianceViolationDetected(_, _, _, _, _, _) => "ComplianceViolationDetected"
    case AuditCompleted(_, _, _, _, _, _, _) => "AuditCompleted"
  }

  /** `Time()`: when the event occurred; every variant answers with its
      own `OccurredAt` field. */
  function EventTime(e: DomainEvent): (t: Time)
    ensures t == e.occurredAt
  {
    e.occurredAt
  }

  /** Recovers the variant position from an event-type string.  Most tags
      have a length no other tag has; where two or three share a length, one
      character that differs between them decides.  -1 for a string that is
      no event type of this length. */
  function KindOfName(t: string): int
  {
    var at := (k: nat) => if k < |t| then t[k] else ' ';
    match |t|
    case 14 => 16                                  // AuditCompleted
    case 16 =>
      if at(0) == 'P' then 0                       // PortfolioCreated
      else if at(10) == 'p' then 13                // IncidentReported
      else 14                                      // IncidentResolved
    case 18 => 3                                   // ApplicationUpdated
    case 20 => 11                                  // ChangeRequestCreated
    case 21 => 12                                  // ChangeRequestApproved
    case 22 => 9                                   // GovernanceDirectionSet
    case 26 =>
      if at(19) == 'C' then 4                      // GovernanceAgreementCreated
      else 5                                       // GovernanceAgreementUpdated
    case 27 =>
      if at(0) == 'A' then 1                       // ApplicationAddedToPortfolio
      else if at(0) == 'G' then 6                  // GovernanceAgreementApproved
      else 15                                      // ComplianceViolationDetected
    case 28 => 7                                   // GovernanceAgreementActivated
    case 29 =>
      if at(10) == 'E' then 8                      // GovernanceEvaluationCompleted
      else 10                                      // GovernanceMonitoringCompleted
    case 31 => 2                                   // ApplicationRemovedFromPortfolio
    case _ => -1
  }

  /** The event-type string determines the variant: decoding it gives back
      the variant's position. */
  lemma EventTypeDeterminesKind(e: DomainEvent)
    ensures KindOfName(EventType(e)) == Kind(e)
  {
  }

  /** No two variants share an event-type string, so `FindByEventType`
      selects exactly the events of one variant. */
  lemma EventTypeIdentifiesVariant(a: DomainEvent, b: DomainEvent)
    ensures EventType(a) == EventType(b) <==> Kind(a) == Kind(b)
  {
    EventTypeDeterminesKind(a);
    EventTypeDeterminesKind(b);
  }
}
