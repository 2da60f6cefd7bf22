/** The change management application service (application/
    change_management_service.go): change requests reviewed once,
    incidents resolved once, audits completed from "in progress". The SDK
    declares the change-request, incident and audit stores only as
    interfaces; here each is a map from ID to record that, like the SDK's
    in-memory stores, overwrites on save and refuses to update a missing
    record. */
module ChangeManagementService {
  import opened Wrappers
  import opened DomainTypes
  import opened Events
  import MemoryApplications
  import MemoryEvents

  // ----------------------------------------------------------------- stores

  class ChangeRequestStore {
    var requests: map<string, ChangeRequest>

    /** Every request is stored under its own ID. */
    ghost predicate Valid()
      reads this
    {
      forall id :: id in requests ==> requests[id].id == id
    }

    constructor ()
      ensures Valid() && requests == map[]
    {
      requests := map[];
    }

    method Save(cr: ChangeRequest)
      requires Valid()
      modifies this
      ensures Valid() && requests == old(requests)[cr.id := cr]
    {
      requests := requests[cr.id := cr];
    }

    method FindByID(id: string) returns (r: Result<ChangeRequest>)
      ensures r.Ok? <==> id in requests
      ensures r.Ok? ==> r.value == requests[id]
      ensures r.Err? ==> r.error == NotFound("change request not found")
    {
      if id !in requests {
        return Err(NotFound("change request not found"));
      }
      r := Ok(requests[id]);
    }

    method Update(cr: ChangeRequest) returns (r: Outcome)
      requires Valid()
      modifies this
      ensures Valid()
      ensures r.Pass? <==> cr.id in old(requests)
      ensures r.Pass? ==> requests == old(requests)[cr.id := cr]
      ensures r.Fail? ==> r == Fail(NotFound("change request not found")) && requests == old(requests)
    {
      if cr.id !in requests {
        return Fail(NotFound("change request not found"));
      }
      requests := requests[cr.id := cr];
      r := Pass;
    }
  }

  class IncidentStore {
    var incidents: map<string, Incident>

    /** Every incident is stored under its own ID. */
    ghost predicate Valid()
      reads this
    {
      forall id :: id in incidents ==> incidents[id].id == id
    }

    constructor ()
      ensures Valid() && incidents == map[]
    {
      incidents := map[];
    }

    method Save(i: Incident)
      requires Valid()
      modifies this
      ensures Valid() && incidents == old(incidents)[i.id := i]
    {
      incidents := incidents[i.id := i];
    }

    method FindByID(id: string) returns (r: Result<Incident>)
      ensures r.Ok? <==> id in incidents
      ensures r.Ok? ==> r.value == incidents[id]
      ensures r.Err? ==> r.error == NotFound("incident not found")
    {
      if id !in incidents {
        return Err(NotFound("incident not found"));
      }
      r := Ok(incidents[id]);
    }

    method Update(i: Incident) returns (r: Outcome)
      requires Valid()
      modifies this
      ensures Valid()
      ensures r.Pass? <==> i.id in old(incidents)
      ensures r.Pass? ==> incidents == old(incidents)[i.id := i]
      ensures r.Fail? ==> r == Fail(NotFound("incident not found")) && incidents == old(incidents)
    {
      if i.id !in incidents {
        return Fail(NotFound("incident not found"));
      }
      incidents := incidents[i.id := i];
      r := Pass;
    }
  }

  class AuditStore {
    var audits: map<string, Audit>

    /** Every audit is stored under its own ID. */
    ghost predicate Valid()
      reads this
    {
      forall id :: id in audits ==> audits[id].id == id
    }

    constructor ()
      ensures Valid() && audits == map[]
    {
      audits := map[];
    }

    method Save(a: Audit)
      requires Valid()
      modifies this
      ensures Valid() && audits == old(audits)[a.id := a]
    {
      audits := audits[a.id := a];
    }

    method FindByID(id: string) returns (r: Result<Audit>)
      ensures r.Ok? <==> id in audits
      ensures r.Ok? ==> r.value == audits[id]
      ensures r.Err? ==> r.error == NotFound("audit not found")
    {
      if id !in audits {
        return Err(NotFound("audit not found"));
      }
      r := Ok(audits[id]);
    }

    method Update(a: Audit) returns (r: Outcome)
      requires Valid()
      modifies this
      ensures Valid()
      ensures r.Pass? <==> a.id in old(audits)
      ensures r.Pass? ==> audits == old(audits)[a.id := a]
      ensures r.Fail? ==> r == Fail(NotFound("audit not found")) && audits == old(audits)
    {
      if a.id !in audits {
        return Fail(NotFound("audit not found"));
      }
      audits := audits[a.id := a];
      r := Pass;
    }
  }

  // --------------------------------------------------------------- commands

  datatype CreateChangeRequestCommand = CreateChangeRequestCommand(
    id: string, applicationID: ApplicationID, requester: string, changeType: string,
    priority: Priority, title: string, description: string, businessCase: string,
    impact: string, risk: string)

  /** The command of both `ApproveChangeRequest` and `RejectChangeRequest`. */
  datatype ReviewCommand = ReviewCommand(changeRequestID: string, approver: string, role: string, comments: string)

  datatype ReportIncidentCommand = ReportIncidentCommand(
    id: string, applicationID: ApplicationID, reporter: string, severity: int,
    title: string, description: string, impact: string)

  datatype ResolveIncidentCommand = ResolveIncidentCommand(
    incidentID: string, resolver: string, resolution: string, rootCause: string)

  datatype CreateAuditCommand = CreateAuditCommand(
    id: string, applicationID: ApplicationID, auditor: string, auditType: string,
    scope: string, startDate: Time)

  datatype CompleteAuditCommand = CompleteAuditCommand(
    auditID: string, findings: seq<AuditFinding>, recommendations: seq<string>)

  // ---------------------------------------------------- change request rules

  /** The request `CreateChangeRequest` stores: Draft, with no approvals. */
  function NewChangeRequest(cmd: CreateChangeRequestCommand, now: Time): (cr: ChangeRequest)
    ensures cr.id == cmd.id && cr.status == ChangeStatusDraft && cr.approvals == []
  {
    ChangeRequest(cmd.id, cmd.applicationID, cmd.requester, cmd.changeType, cmd.priority, ChangeStatusDraft,
                  cmd.title, cmd.description, cmd.businessCase, cmd.impact, cmd.risk, [], now, now)
  }

  /** The request after `SubmitChangeRequest`: only a Draft may be submitted. */
  function SubmitOf(cr: ChangeRequest, now: Time): (r: Result<ChangeRequest>)
    ensures r.Ok? <==> cr.status == ChangeStatusDraft
    ensures r.Err? ==> r.error == InvalidState("change request is not in draft status")
  {
    if cr.status != ChangeStatusDraft then Err(InvalidState("change request is not in draft status"))
    else Ok(cr.(status := ChangeStatusSubmitted, updatedAt := now))
  }

  /** The status a review with the given verdict moves a request to. */
  function Reviewed(verdict: ApprovalStatus): ChangeRequestStatus
  {
    if verdict == ApprovalApproved then ChangeStatusApproved else ChangeStatusRejected
  }

  /** The request after an approval (`verdict` approved) or a rejection
      (`verdict` rejected): only a Submitted request may be reviewed, and the
      review is appended to its approvals. */
  function ReviewOf(cr: ChangeRequest, cmd: ReviewCommand, verdict: ApprovalStatus, now: Time): (r: Result<ChangeRequest>)
    ensures r.Ok? <==> cr.status == ChangeStatusSubmitted
    ensures r.Err? ==> r.error == InvalidState("change request is not in submitted status")
  {
    if cr.status != ChangeStatusSubmitted then Err(InvalidState("change request is not in submitted status"))
    else Ok(cr.(approvals := cr.approvals + [Approval(cmd.approver, cmd.role, verdict, cmd.comments, now)],
                status := Reviewed(verdict), updatedAt := now))
  }

  /** A review keeps every earlier approval in place and adds exactly one,
      carrying the reviewer and the verdict; nothing but approvals, status
      and stamp changes. */
  lemma ReviewAppendsOneApproval(cr: ChangeRequest, cmd: ReviewCommand, verdict: ApprovalStatus, now: Time)
    requires ReviewOf(cr, cmd, verdict, now).Ok?
    ensures var n := ReviewOf(cr, cmd, verdict, now).value;
            && |n.approvals| == |cr.approvals| + 1
            && n.approvals[..|cr.approvals|] == cr.approvals
            && n.approvals[|cr.approvals|].approver == cmd.approver
            && n.approvals[|cr.approvals|].status == verdict
            && n.(approvals := cr.approvals, status := cr.status, updatedAt := cr.updatedAt) == cr
  {
    var n := ReviewOf(cr, cmd, verdict, now).value;
    assert n.approvals == cr.approvals + [Approval(cmd.approver, cmd.role, verdict, cmd.comments, now)];
  }

  /** The operations of the change request lifecycle. */
  datatype ChangeOp = Submit | Review(cmd: ReviewCommand, verdict: ApprovalStatus)

  /** One operation on a stored request, as the service performs it: a
      refused operation leaves the request as it was. */
  function ApplyChange(cr: ChangeRequest, op: ChangeOp, now: Time): ChangeRequest
  {
    var r := match op
             case Submit => SubmitOf(cr, now)
             case Review(cmd, verdict) => ReviewOf(cr, cmd, verdict, now);
    if r.Ok? then r.value else cr
  }

  function RunChanges(cr: ChangeRequest, ops: seq<ChangeOp>, now: Time): ChangeRequest
    decreases |ops|
  {
    if ops == [] then cr else RunChanges(ApplyChange(cr, ops[0], now), ops[1..], now)
  }

  /** What holds of every request the service has handled: unreviewed
      requests carry no approvals, reviewed ones exactly one. */
  ghost predicate ReviewedAtMostOnce(cr: ChangeRequest)
  {
    || ((cr.status == ChangeStatusDraft || cr.status == ChangeStatusSubmitted) && cr.approvals == [])
    || ((cr.status == ChangeStatusApproved || cr.status == ChangeStatusRejected) && |cr.approvals| == 1)
  }

  lemma ApplyChangeKeepsReviewedAtMostOnce(cr: ChangeRequest, op: ChangeOp, now: Time)
    requires ReviewedAtMostOnce(cr)
    ensures ReviewedAtMostOnce(ApplyChange(cr, op, now))
  {
  }

  /** Whatever sequence of submissions, approvals and rejections is applied,
      a request created by the service never carries more than one
      approval: an approved or rejected request can be neither submitted
      nor reviewed again. */
  lemma {:induction false} CreatedRequestIsReviewedAtMostOnce(cr: ChangeRequest, ops: seq<ChangeOp>, now: Time)
    requires ReviewedAtMostOnce(cr)
    ensures ReviewedAtMostOnce(RunChanges(cr, ops, now))
    ensures |RunChanges(cr, ops, now).approvals| <= 1
    decreases |ops|
  {
    if ops != [] {
      ApplyChangeKeepsReviewedAtMostOnce(cr, ops[0], now);
      CreatedRequestIsReviewedAtMostOnce(ApplyChange(cr, ops[0], now), ops[1..], now);
    }
  }

  /** A new request satisfies the invariant. */
  lemma NewChangeRequestIsUnreviewed(cmd: CreateChangeRequestCommand, now: Time)
    ensures ReviewedAtMostOnce(NewChangeRequest(cmd, now))
  {
  }

  // ---------------------------------------------------------- incident rules

  /** The incident `ReportIncident` stores: Open, nothing resolved yet. */
  function NewIncident(cmd: ReportIncidentCommand, now: Time): (i: Incident)
    ensures i.id == cmd.id && i.status == IncidentStatusOpen
  {
    Incident(cmd.id, cmd.applicationID, cmd.reporter, cmd.severity, IncidentStatusOpen, cmd.title,
             cmd.description, cmd.impact, "", "", 0, now, now, ZeroTime)
  }

  /** The incident after `ResolveIncident`: open or investigating incidents
      become Resolved, the time to resolve measured from creation. */
  function ResolveOf(i: Incident, cmd: ResolveIncidentCommand, now: Time): (r: Result<Incident>)
    ensures r.Ok? <==> i.status != IncidentStatusResolved && i.status != IncidentStatusClosed
    ensures r.Err? ==> r.error == InvalidState("incident is already resolved or closed")
    ensures r.Ok? ==> r.value.status == IncidentStatusResolved && r.value.timeToResolve == Since(i.createdAt, now)
  {
    if i.status == IncidentStatusResolved || i.status == IncidentStatusClosed then
      Err(InvalidState("incident is already resolved or closed"))
    else
      Ok(i.(status := IncidentStatusResolved, resolution := cmd.resolution, rootCause := cmd.rootCause,
            timeToResolve := Since(i.createdAt, now), resolvedAt := now, updatedAt := now))
  }

  /** An incident is resolved at most once: resolving it again is refused,
      whatever the second command says. */
  lemma ResolveIsRefusedTheSecondTime(i: Incident, cmd: ResolveIncidentCommand, cmd2: ResolveIncidentCommand,
                                      now: Time, later: Time)
    requires ResolveOf(i, cmd, now).Ok?
    ensures ResolveOf(ResolveOf(i, cmd, now).value, cmd2, later) ==
              Err(InvalidState("incident is already resolved or closed"))
  {
  }

  // ------------------------------------------------------------- audit rules

  /** The audit `CreateAudit` stores: Planned, with no findings. */
  function NewAudit(cmd: CreateAuditCommand): (a: Audit)
    ensures a.id == cmd.id && a.status == AuditStatusPlanned && a.findings == []
  {
    Audit(cmd.id, cmd.applicationID, cmd.auditor, cmd.auditType, AuditStatusPlanned, cmd.scope, [], [],
          cmd.startDate, ZeroTime)
  }

  /** The audit after `CompleteAudit`: only an audit in progress may be
      completed, taking the command's findings and recommendations. */
  function CompleteOf(a: Audit, cmd: CompleteAuditCommand, now: Time): (r: Result<Audit>)
    ensures r.Ok? <==> a.status == AuditStatusInProgress
    ensures r.Err? ==> r.error == InvalidState("audit is not in progress")
    ensures r.Ok? ==> r.value.status == AuditStatusCompleted && r.value.findings == cmd.findings
  {
    if a.status != AuditStatusInProgress then Err(InvalidState("audit is not in progress"))
    else Ok(a.(status := AuditStatusCompleted, completedAt := now, findings := cmd.findings,
               recommendations := cmd.recommendations))
  }

  /** No operation of this service moves an audit to "in progress", so an
      audit the service created cannot be completed by it. */
  lemma CreatedAuditCannotBeCompleted(cmd: CreateAuditCommand, complete: CompleteAuditCommand, now: Time)
    ensures CompleteOf(NewAudit(cmd), complete, now).Err?
  {
  }

  /** The finding list of the completion event: the descriptions, in order. */
  method FindingDescriptions(findings: seq<AuditFinding>) returns (ds: seq<string>)
    ensures |ds| == |findings|
    ensures forall i :: 0 <= i < |findings| ==> ds[i] == findings[i].description
  {
    var a := new string[|findings|];
    var i := 0;
    while i < |findings|
      invariant 0 <= i <= |findings|
      invariant forall k :: 0 <= k < i ==> a[k] == findings[k].description
    {
      a[i] := findings[i].description;
      i := i + 1;
    }
    ds := a[..];
  }

  const ApplicationMissing := Wrap("application not found: ", NotFound("application not found"))

  // ------------------------------------------------------- change requests

  /** `CreateChangeRequest`: the application must be stored; then a Draft
      request is stored, overwriting one with the same ID, and its creation
      event is saved. */
  method CreateChangeRequest(store: ChangeRequestStore, appRepo: MemoryApplications.ApplicationRepository,
                             eventRepo: MemoryEvents.EventRepository, cmd: CreateChangeRequestCommand, now: Time)
    returns (r: Result<ChangeRequest>)
    requires store.Valid()
    modifies store, eventRepo
    ensures store.Valid()
    ensures r.Ok? <==> cmd.applicationID in appRepo.applications
    ensures r.Err? ==> r.error == ApplicationMissing && store.requests == old(store.requests)
                       && eventRepo.events == old(eventRepo.events)
    ensures r.Ok? ==>
              r.value == NewChangeRequest(cmd, now)
              && store.requests == old(store.requests)[cmd.id := r.value]
              && eventRepo.events == old(eventRepo.events) +
                   [ChangeRequestCreated(cmd.id, cmd.applicationID, cmd.requester, cmd.changeType, cmd.priority,
                                         cmd.description, now)]
  {
    var app := appRepo.FindByID(cmd.applicationID);
    if app.Err? {
      return Err(Wrap("application not found: ", app.error));
    }
    var cr := NewChangeRequest(cmd, now);
    store.Save(cr);
    eventRepo.Save(ChangeRequestCreated(cr.id, cr.applicationID, cr.requester, cr.changeType, cr.priority,
                                        cr.description, now));
    r := Ok(cr);
  }

  /** `SubmitChangeRequest`: a stored Draft request becomes Submitted. */
  method SubmitChangeRequest(store: ChangeRequestStore, changeRequestID: string, now: Time) returns (r: Outcome)
    requires store.Valid()
    modifies store
    ensures store.Valid()
    ensures changeRequestID !in old(store.requests) ==>
              r == Fail(Wrap("change request not found: ", NotFound("change request not found")))
    ensures changeRequestID in old(store.requests) ==>
              var s := SubmitOf(old(store.requests)[changeRequestID], now);
              && (r.Pass? <==> s.Ok?)
              && (s.Ok? ==> store.requests == old(store.requests)[changeRequestID := s.value])
              && (s.Err? ==> r == Fail(s.error))
    ensures r.Fail? ==> store.requests == old(store.requests)
  {
    var found := store.FindByID(changeRequestID);
    if found.Err? {
      return Fail(Wrap("change request not found: ", found.error));
    }
    var cr := found.value;
    if cr.status != ChangeStatusDraft {
      return Fail(InvalidState("change request is not in draft status"));
    }
    var u := store.Update(cr.(status := ChangeStatusSubmitted, updatedAt := now));
    match u {
      case Pass => r := Pass;
      case Fail(e) => r := Fail(Wrap("failed to submit change request: ", e));
    }
  }

  /** The shared body of approval and rejection: a stored Submitted request
      gains one approval with the verdict and moves to the matching status. */
  method Review(store: ChangeRequestStore, cmd: ReviewCommand, verdict: ApprovalStatus, now: Time)
    returns (r: Outcome)
    requires store.Valid()
    modifies store
    ensures store.Valid()
    ensures cmd.changeRequestID !in old(store.requests) ==>
              r == Fail(Wrap("change request not found: ", NotFound("change request not found")))
    ensures cmd.changeRequestID in old(store.requests) ==>
              var s := ReviewOf(old(store.requests)[cmd.changeRequestID], cmd, verdict, now);
              && (r.Pass? <==> s.Ok?)
              && (s.Ok? ==> store.requests == old(store.requests)[cmd.changeRequestID := s.value])
              && (s.Err? ==> r == Fail(s.error))
    ensures r.Fail? ==> store.requests == old(store.requests)
  {
    var found := store.FindByID(cmd.changeRequestID);
    if found.Err? {
      return Fail(Wrap("change request not found: ", found.error));
    }
    var cr := found.value;
    if cr.status != ChangeStatusSubmitted {
      return Fail(InvalidState("change request is not in submitted status"));
    }
    var approval := Approval(cmd.approver, cmd.role, verdict, cmd.comments, now);
    var u := store.Update(cr.(approvals := cr.approvals + [approval], status := Reviewed(verdict), updatedAt := now));
    match u {
      case Pass => r := Pass;
      case Fail(e) => r := Fail(Wrap("failed to update change request: ", e));
    }
  }

  /** `ApproveChangeRequest`: review with an approving verdict and save an
      approval event. */
  method ApproveChangeRequest(store: ChangeRequestStore, eventRepo: MemoryEvents.EventRepository,
                              cmd: ReviewCommand, now: Time)
    returns (r: Outcome)
    requires store.Valid()
    modifies store, eventRepo
    ensures store.Valid()
    ensures r.Pass? <==> cmd.changeRequestID in old(store.requests)
                         && old(store.requests)[cmd.changeRequestID].status == ChangeStatusSubmitted
    ensures cmd.changeRequestID !in old(store.requests) ==>
              r == Fail(Wrap("change request not found: ", NotFound("change request not found")))
    ensures cmd.changeRequestID in old(store.requests)
            && old(store.requests)[cmd.changeRequestID].status != ChangeStatusSubmitted ==>
              r == Fail(InvalidState("change request is not in submitted status"))
    ensures r.Pass? ==>
              store.requests == old(store.requests)[cmd.changeRequestID :=
                ReviewOf(old(store.requests)[cmd.changeRequestID], cmd, ApprovalApproved, now).value]
              && store.requests[cmd.changeRequestID].status == ChangeStatusApproved
              && eventRepo.events == old(eventRepo.events) + [ChangeRequestApproved(cmd.changeRequestID, cmd.approver, now)]
    ensures r.Fail? ==> store.requests == old(store.requests) && eventRepo.events == old(eventRepo.events)
  {
    r := Review(store, cmd, ApprovalApproved, now);
    if r.Pass? {
      eventRepo.Save(ChangeRequestApproved(cmd.changeRequestID, cmd.approver, now));
    }
  }

  /** `RejectChangeRequest`: review with a rejecting verdict; no event is
      saved. */
  method RejectChangeRequest(store: ChangeRequestStore, cmd: ReviewCommand, now: Time)
    returns (r: Outcome)
    requires store.Valid()
    modifies store
    ensures store.Valid()
    ensures r.Pass? <==> cmd.changeRequestID in old(store.requests)
                         && old(store.requests)[cmd.changeRequestID].status == ChangeStatusSubmitted
    ensures cmd.changeRequestID !in old(store.requests) ==>
              r == Fail(Wrap("change request not found: ", NotFound("change request not found")))
    ensures cmd.changeRequestID in old(store.requests)
            && old(store.requests)[cmd.changeRequestID].status != ChangeStatusSubmitted ==>
              r == Fail(InvalidState("change request is not in submitted status"))
    ensures r.Pass? ==>
              store.requests == old(store.requests)[cmd.changeRequestID :=
                ReviewOf(old(store.requests)[cmd.changeRequestID], cmd, ApprovalRejected, now).value]
              && store.requests[cmd.changeRequestID].status == ChangeStatusRejected
    ensures r.Fail? ==> store.requests == old(store.requests)
  {
    r := Review(store, cmd, ApprovalRejected, now);
  }

  // -------------------------------------------------------------- incidents

  /** `ReportIncident`: the application must be stored; then an Open
      incident is stored and its report event saved. */
  method ReportIncident(store: IncidentStore, appRepo: MemoryApplications.ApplicationRepository,
                        eventRepo: MemoryEvents.EventRepository, cmd: ReportIncidentCommand, now: Time)
    returns (r: Result<Incident>)
    requires store.Valid()
    modifies store, eventRepo
    ensures store.Valid()
    ensures r.Ok? <==> cmd.applicationID in appRepo.applications
    ensures r.Err? ==> r.error == ApplicationMissing && store.incidents == old(store.incidents)
                       && eventRepo.events == old(eventRepo.events)
    ensures r.Ok? ==>
              r.value == NewIncident(cmd, now)
              && store.incidents == old(store.incidents)[cmd.id := r.value]
              && eventRepo.events == old(eventRepo.events) +
                   [IncidentReported(cmd.id, cmd.applicationID, cmd.reporter, cmd.severity, cmd.description, now)]
  {
    var app := appRepo.FindByID(cmd.applicationID);
    if app.Err? {
      return Err(Wrap("application not found: ", app.error));
    }
    var incident := NewIncident(cmd, now);
    store.Save(incident);
    eventRepo.Save(IncidentReported(incident.id, incident.applicationID, incident.reporter, incident.severity,
                                    incident.description, now));
    r := Ok(incident);
  }

  /** `ResolveIncident`: a stored incident that is neither resolved nor
      closed becomes Resolved and a resolution event carrying the time to
      resolve is saved. */
  method ResolveIncident(store: IncidentStore, eventRepo: MemoryEvents.EventRepository,
                         cmd: ResolveIncidentCommand, now: Time)
    returns (r: Outcome)
    requires store.Valid()
    modifies store, eventRepo
    ensures store.Valid()
    ensures cmd.incidentID !in old(store.incidents) ==>
              r == Fail(Wrap("incident not found: ", NotFound("incident not found")))
    ensures cmd.incidentID in old(store.incidents) ==>
              var i := old(store.incidents)[cmd.incidentID];
              var s := ResolveOf(i, cmd, now);
              && (r.Pass? <==> s.Ok?)
              && (s.Err? ==> r == Fail(s.error))
              && (s.Ok? ==>
                    store.incidents == old(store.incidents)[cmd.incidentID := s.value]
                    && eventRepo.events == old(eventRepo.events) +
                         [IncidentResolved(cmd.incidentID, cmd.resolver, cmd.resolution, Since(i.createdAt, now), now)])
    ensures r.Fail? ==> store.incidents == old(store.incidents) && eventRepo.events == old(eventRepo.events)
  {
    var found := store.FindByID(cmd.incidentID);
    if found.Err? {
      return Fail(Wrap("incident not found: ", found.error));
    }
    var incident := found.value;
    if incident.status == IncidentStatusResolved || incident.status == IncidentStatusClosed {
      return Fail(InvalidState("incident is already resolved or closed"));
    }
    incident := incident.(status := IncidentStatusResolved, resolution := cmd.resolution, rootCause := cmd.rootCause,
                          timeToResolve := Since(incident.createdAt, now), resolvedAt := now, updatedAt := now);
    var u := store.Update(incident);
    match u {
      case Pass =>
        eventRepo.Save(IncidentResolved(incident.id, cmd.resolver, cmd.resolution, incident.timeToResolve, now));
        r := Pass;
      case Fail(e) =>
        r := Fail(Wrap("failed to resolve incident: ", e));
    }
  }

  // ----------------------------------------------------------------- audits

  /** `CreateAudit`: the application must be stored; then a Planned audit
      is stored. No event is saved. */
  method CreateAudit(store: AuditStore, appRepo: MemoryApplications.ApplicationRepository, cmd: CreateAuditCommand)
    returns (r: Result<Audit>)
    requires store.Valid()
    modifies store
    ensures store.Valid()
    ensures r.Ok? <==> cmd.applicationID in appRepo.applications
    ensures r.Err? ==> r.error == ApplicationMissing && store.audits == old(store.audits)
    ensures r.Ok? ==> r.value == NewAudit(cmd) && store.audits == old(store.audits)[cmd.id := r.value]
  {
    var app := appRepo.FindByID(cmd.applicationID);
    if app.Err? {
      return Err(Wrap("application not found: ", app.error));
    }
    var audit := NewAudit(cmd);
    store.Save(audit);
    r := Ok(audit);
  }

  /** `CompleteAudit`: a stored audit in progress becomes Completed with the
      command's findings, and a completion event lists the findings'
      descriptions in order. */
  method CompleteAudit(store: AuditStore, eventRepo: MemoryEvents.EventRepository,
                       cmd: CompleteAuditCommand, now: Time)
    returns (r: Outcome)
    requires store.Valid()
    modifies store, eventRepo
    ensures store.Valid()
    ensures cmd.auditID !in old(store.audits) ==>
              r == Fail(Wrap("audit not found: ", NotFound("audit not found")))
    ensures cmd.auditID in old(store.audits) ==>
              var a := old(store.audits)[cmd.auditID];
              var s := CompleteOf(a, cmd, now);
              && (r.Pass? <==> s.Ok?)
              && (s.Err? ==> r == Fail(s.error))
              && (s.Ok? ==> store.audits == old(store.audits)[cmd.auditID := s.value])
    ensures r.Pass? ==>
              var a := old(store.audits)[cmd.auditID];
              |eventRepo.events| == |old(eventRepo.events)| + 1
              && eventRepo.events[..|old(eventRepo.events)|] == old(eventRepo.events)
              && var e := eventRepo.events[|old(eventRepo.events)|];
                 && e.AuditCompleted?
                 && e == AuditCompleted(cmd.auditID, a.applicationID, a.auditor, a.scope, e.findings, "completed", now)
                 && |e.findings| == |cmd.findings|
                 && forall i :: 0 <= i < |cmd.findings| ==> e.findings[i] == cmd.findings[i].description
    ensures r.Fail? ==> store.audits == old(store.audits) && eventRepo.events == old(eventRepo.events)
  {
    var found := store.FindByID(cmd.auditID);
    if found.Err? {
      return Fail(Wrap("audit not found: ", found.error));
    }
    var audit := found.value;
    if audit.status != AuditStatusInProgress {
      return Fail(InvalidState("audit is not in progress"));
    }
    audit := audit.(status := AuditStatusCompleted, completedAt := now, findings := cmd.findings,
                    recommendations := cmd.recommendations);
    var u := store.Update(audit);
    match u {
      case Pass =>
        var findings := FindingDescriptions(cmd.findings);
        eventRepo.Save(AuditCompleted(audit.id, audit.applicationID, audit.auditor, audit.scope, findings,
                                      "completed", now));
        r := Pass;
      case Fail(e) =>
        r := Fail(Wrap("failed to complete audit: ", e));
    }
  }
}
