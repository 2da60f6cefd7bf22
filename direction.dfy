/** The direction principle: replacing the strategic direction, the resource
    allocation and the policy framework of a stored agreement, and the
    action plans generated from strategic objectives. */
module DirectionService {
  import opened Wrappers
  import opened DomainTypes
  import opened Strings
  import MemoryGovernance

  // ------------------------------------------------------------ action plans

  /** The identifier of the plan at position `i` (counting from 0), "ap-(i+1)". */
  function PlanID(i: nat): string
  {
    "ap-" + NatToString(i + 1)
  }

  /** The identifier of that plan's only action, "action-(i+1)-1". */
  function PlanActionID(i: nat): string
  {
    "action-" + NatToString(i + 1) + "-1"
  }

  /** The plan generated for the objective at position `i`: owned by "TBD",
      due with the objective, with a single pending action due thirty days
      earlier. */
  function ActionPlanFor(i: nat, o: StrategicObjective): ActionPlan
  {
    ActionPlan(PlanID(i),
               "Action Plan for " + o.name,
               "Implementation plan for strategic objective: " + o.description,
               [Action(PlanActionID(i), "Define detailed implementation steps", "TBD",
                       o.deadline - 30 * Day, ActionPending)],
               "TBD", o.deadline, ActionPending)
  }

  /** One plan per objective, in the objectives' order. */
  function ActionPlansFor(objectives: seq<StrategicObjective>): (plans: seq<ActionPlan>)
    ensures |plans| == |objectives|
  {
    seq(|objectives|, i requires 0 <= i < |objectives| => ActionPlanFor(i, objectives[i]))
  }

  /** Every generated plan is pending, owned by "TBD", due with its
      objective, and holds one pending "TBD" action due thirty days before. */
  lemma ActionPlanShape(i: nat, o: StrategicObjective)
    ensures var p := ActionPlanFor(i, o);
            && p.id == "ap-" + NatToString(i + 1)
            && p.owner == "TBD" && p.deadline == o.deadline && p.status == ActionPending
            && |p.actions| == 1
            && p.actions[0].id == "action-" + NatToString(i + 1) + "-1"
            && p.actions[0].responsible == "TBD"
            && p.actions[0].deadline == o.deadline - 30 * Day
            && p.actions[0].status == ActionPending
  {
  }

  /** Plans generated for different positions carry different IDs, and so
      do their actions. */
  lemma PlanIDsDiffer(i: nat, j: nat)
    requires i != j
    ensures PlanID(i) != PlanID(j) && PlanActionID(i) != PlanActionID(j)
  {
    PrefixedNumbersDiffer("ap-", i + 1, j + 1);
    PrefixedSuffixedNumbersDiffer("action-", "-1", i + 1, j + 1);
  }

  /** `createActionPlansFromObjectives`: fill a slice of the objectives'
      length, one plan per position. */
  method CreateActionPlansFromObjectives(objectives: seq<StrategicObjective>) returns (plans: seq<ActionPlan>)
    ensures plans == ActionPlansFor(objectives)
    ensures forall i, j :: 0 <= i < j < |plans| ==> plans[i].id != plans[j].id
  {
    var a := new ActionPlan[|objectives|];
    var i := 0;
    while i < |objectives|
      invariant 0 <= i <= |objectives|
      invariant forall k :: 0 <= k < i ==> a[k] == ActionPlanFor(k, objectives[k])
    {
      a[i] := ActionPlanFor(i, objectives[i]);
      i := i + 1;
    }
    plans := a[..];
    forall i, j | 0 <= i < j < |plans| ensures plans[i].id != plans[j].id {
      PlanIDsDiffer(i, j);
    }
  }

  // ------------------------------------------------------------ the setters

  /** The agreement after `SetStrategicDirection`: objectives, initiatives
      and action plans replaced, the direction stamped `now`. */
  function Directed(g: GovernanceAgreement, objectives: seq<StrategicObjective>,
                    initiatives: seq<StrategicInitiative>, now: Time): GovernanceAgreement
  {
    g.(direct := g.direct.(
         strategicDirection := g.direct.strategicDirection.(objectives := objectives, initiatives := initiatives),
         actionPlans := ActionPlansFor(objectives),
         lastDirected := now))
  }

  /** The agreement after `AllocateResources`: budget and personnel
      allocations replaced, the direction stamped `now`. */
  function Allocated(g: GovernanceAgreement, budget: seq<BudgetAllocation>,
                     personnel: seq<PersonnelAllocation>, now: Time): GovernanceAgreement
  {
    g.(direct := g.direct.(
         resourceAllocation := g.direct.resourceAllocation.(budgetAllocations := budget,
                                                             personnelAllocations := personnel),
         lastDirected := now))
  }

  /** The agreement after `EstablishPolicies`: policies, standards and
      procedures replaced. */
  function WithPolicies(g: GovernanceAgreement, policies: seq<Policy>,
                        standards: seq<Standard>, procedures: seq<Procedure>): GovernanceAgreement
  {
    g.(direct := g.direct.(
         policyFramework := g.direct.policyFramework.(policies := policies, standards := standards,
                                                      procedures := procedures)))
  }

  /** `SetStrategicDirection` replaces objectives, initiatives and plans
      wholesale and touches nothing outside the direction principle: vision,
      mission, resources and policies stay, and so does every other part of
      the agreement. */
  lemma DirectedChangesOnlyDirection(g: GovernanceAgreement, objectives: seq<StrategicObjective>,
                                     initiatives: seq<StrategicInitiative>, now: Time)
    ensures var d := Directed(g, objectives, initiatives, now);
            && d.direct.strategicDirection.objectives == objectives
            && d.direct.strategicDirection.initiatives == initiatives
            && |d.direct.actionPlans| == |objectives|
            && d.direct.lastDirected == now
            && d.direct.strategicDirection.vision == g.direct.strategicDirection.vision
            && d.direct.strategicDirection.mission == g.direct.strategicDirection.mission
            && d.direct.resourceAllocation == g.direct.resourceAllocation
            && d.direct.policyFramework == g.direct.policyFramework
            && d.(direct := g.direct) == g
  {
  }

  /** `AllocateResources` keeps the technology allocations and everything
      outside the resource allocation except the direction stamp. */
  lemma AllocatedChangesOnlyResources(g: GovernanceAgreement, budget: seq<BudgetAllocation>,
                                      personnel: seq<PersonnelAllocation>, now: Time)
    ensures var d := Allocated(g, budget, personnel, now);
            && d.direct.resourceAllocation.budgetAllocations == budget
            && d.direct.resourceAllocation.personnelAllocations == personnel
            && d.direct.resourceAllocation.technologyAllocations == g.direct.resourceAllocation.technologyAllocations
            && d.direct.lastDirected == now
            && d.direct.strategicDirection == g.direct.strategicDirection
            && d.direct.actionPlans == g.direct.actionPlans
            && d.(direct := g.direct) == g
  {
  }

  /** `EstablishPolicies` leaves the guidelines and the direction stamp
      untouched. */
  lemma WithPoliciesKeepsGuidelinesAndStamp(g: GovernanceAgreement, policies: seq<Policy>,
                                            standards: seq<Standard>, procedures: seq<Procedure>)
    ensures var d := WithPolicies(g, policies, standards, procedures);
            && d.direct.policyFramework == PolicyFramework(policies, standards, procedures,
                                                           g.direct.policyFramework.guidelines)
            && d.direct.lastDirected == g.direct.lastDirected
            && d.(direct := g.direct) == g
  {
  }

  const FindFailure := "failed to find governance agreement: "
  const UpdateFailure := "failed to update governance agreement: "

  /** `SetStrategicDirection`: load the agreement, replace its strategic
      direction and plans, and store it back. The director's name is
      accepted and not used. */
  method SetStrategicDirection(repo: MemoryGovernance.GovernanceRepository, agreementID: GovernanceAgreementID,
                               director: string, objectives: seq<StrategicObjective>,
                               initiatives: seq<StrategicInitiative>, now: Time)
    returns (r: Outcome)
    requires repo.Valid()
    modifies repo
    ensures repo.Valid() && repo.byApplication == old(repo.byApplication)
    ensures r.Pass? <==> agreementID in old(repo.agreements)
    ensures r.Pass? ==>
              repo.agreements == old(repo.agreements)[agreementID :=
                Directed(old(repo.agreements)[agreementID], objectives, initiatives, now)]
    ensures r.Fail? ==>
              r == Fail(NotFound(FindFailure + "governance agreement not found"))
              && repo.agreements == old(repo.agreements)
  {
    var g := repo.FindByID(agreementID);
    if g.Err? {
      return Fail(Wrap(FindFailure, g.error));
    }
    var plans := CreateActionPlansFromObjectives(objectives);
    var updated := g.value.(direct := g.value.direct.(
                     strategicDirection := g.value.direct.strategicDirection.(objectives := objectives,
                                                                              initiatives := initiatives),
                     lastDirected := now,
                     actionPlans := plans));
    var u := repo.Update(updated);
    match u {
      case Pass => r := Pass;
      case Fail(e) => r := Fail(Wrap(UpdateFailure, e));
    }
  }

  /** `AllocateResources`: load the agreement, replace its budget and
      personnel allocations, and store it back. */
  method AllocateResources(repo: MemoryGovernance.GovernanceRepository, agreementID: GovernanceAgreementID,
                           budget: seq<BudgetAllocation>, personnel: seq<PersonnelAllocation>, now: Time)
    returns (r: Outcome)
    requires repo.Valid()
    modifies repo
    ensures repo.Valid() && repo.byApplication == old(repo.byApplication)
    ensures r.Pass? <==> agreementID in old(repo.agreements)
    ensures r.Pass? ==>
              repo.agreements == old(repo.agreements)[agreementID :=
                Allocated(old(repo.agreements)[agreementID], budget, personnel, now)]
    ensures r.Fail? ==>
              r == Fail(NotFound(FindFailure + "governance agreement not found"))
              && repo.agreements == old(repo.agreements)
  {
    var g := repo.FindByID(agreementID);
    if g.Err? {
      return Fail(Wrap(FindFailure, g.error));
    }
    var updated := g.value.(direct := g.value.direct.(
                     resourceAllocation := g.value.direct.resourceAllocation.(budgetAllocations := budget,
                                                                              personnelAllocations := personnel),
                     lastDirected := now));
    var u := repo.Update(updated);
    match u {
      case Pass => r := Pass;
      case Fail(e) => r := Fail(Wrap(UpdateFailure, e));
    }
  }

  /** `EstablishPolicies`: load the agreement, replace its policies,
      standards and procedures, and store it back. */
  method EstablishPolicies(repo: MemoryGovernance.GovernanceRepository, agreementID: GovernanceAgreementID,
                           policies: seq<Policy>, standards: seq<Standard>, procedures: seq<Procedure>)
    returns (r: Outcome)
    requires repo.Valid()
    modifies repo
    ensures repo.Valid() && repo.byApplication == old(repo.byApplication)
    ensures r.Pass? <==> agreementID in old(repo.agreements)
    ensures r.Pass? ==>
              repo.agreements == old(repo.agreements)[agreementID :=
                WithPolicies(old(repo.agreements)[agreementID], policies, standards, procedures)]
    ensures r.Fail? ==>
              r == Fail(NotFound(FindFailure + "governance agreement not found"))
              && repo.agreements == old(repo.agreements)
  {
    var g := repo.FindByID(agreementID);
    if g.Err? {
      return Fail(Wrap(FindFailure, g.error));
    }
    var updated := g.value.(direct := g.value.direct.(
                     policyFramework := g.value.direct.policyFramework.(policies := policies,
                                                                        standards := standards,
                                                                        procedures := procedures)));
    var u := repo.Update(updated);
    match u {
      case Pass => r := Pass;
      case Fail(e) => r := Fail(Wrap(UpdateFailure, e));
    }
  }
}
