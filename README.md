# ISO/IEC 38500 governance SDK — a verified Dafny model

This project models the domain core of the Go `iso38500-governance-sdk` and proves its behaviour. That core has six parts:

- **Evaluation engine** (EvaluationService). It scores an application's technical health and business value, derives a risk level and a fixed-order list of recommendations, and rolls these up over a portfolio.
- **Direction principle** (DirectionService). It replaces an agreement's strategic direction, resources or policy framework, and generates one action plan per strategic objective.
- **Monitoring principle** (MonitoringService). It judges KPI measurements against their targets, classifies risks as normal, warning or critical, and falls back to fixed demonstration records when no store is configured.
- **Aggregates**. The application portfolio aggregate keeps its members free of duplicate IDs and names and records domain events. The governance agreement aggregate moves an agreement through Draft → Approved → Active.
- **Application services**. These are the portfolio, governance and change-management services (change requests, incidents, audits). Each loads from a store, checks a guard, updates the record and publishes events.
- **In-memory stores**. These are the application, portfolio, agreement and event repositories. Each is a map with hand-kept secondary indexes (`byOwner`, `byApplication`, and a portfolio index nothing writes) or an append-only log.

How the Go program is represented:

- **State stored by value.** Go structs kept by value in maps or slices (`Application`, `GovernanceAgreement`, `ApplicationPortfolio`, `ResponsibilityMatrix`) are datatypes. Their pointer-receiver mutators return the new value.
- **State that is updated.** The aggregates and the repositories are classes whose fields the methods reassign.
- **Loops.** Loops in the source are `while` loops with invariants, each proved against a specification function. This covers the portfolio roll-up, the average age, the action-plan fill, the KPI and risk loops, the repository scans and the audit findings.
- **Time** is an integer count of seconds. 0 stands for Go's zero `time.Time`, and every use of the clock is an explicit `now` parameter.
- **Durations** that the code stores or averages (the average application age, an incident's time to resolve) are Go `time.Duration` values: int64 nanoseconds. `DomainTypes.Since` saturates at the int64 bounds as `time.Since` does, and `DomainTypes.AddNanoseconds` wraps as int64 addition does. Durations that are only compared with day thresholds stay whole seconds; `EvaluationService.SinceKeepsComparisons` shows that those comparisons give the same answer either way.
- **Errors** are values of `Wrappers.Error`, which carry the Go message and its kind (not found, already exists, invalid state, validation). `Wrap(prefix, e)` plays the part of `fmt.Errorf("prefix: %w", e)`.
- **Unconfigured stores.** The KPI, KPI-measurement and risk stores that the monitoring service may lack are `Option` parameters holding the store's answer.
- **Facts of the code that the model keeps.** `events.go` defines seventeen event variants, ComplianceViolationDetected among them. The aggregate's duplicate scan reports an ID or name clash member by member. `FindByPortfolioID` always returns nothing.

## Model

| member | source | states |
|---|---|---|
| Model.ValidateApplication | iso38500-governance-sdk/domain/model.go:62-70 | passes iff ID and name are non-empty; an empty ID is reported before an empty name, with the exact messages |
| Model.ValidateAgreement | iso38500-governance-sdk/domain/model.go:108-119 | passes iff ID, application ID and title are non-empty; the checks and messages come in that order |
| Model.ValidatePortfolio | iso38500-governance-sdk/domain/model.go:134-142 | passes iff ID and name are non-empty; the owner is not checked |
| Model.IndexOfID | iso38500-governance-sdk/domain/model.go:163-172 | -1 iff no member has the ID; otherwise the position of the first member with it |
| Model.AppendKeepsIDsUnique | iso38500-governance-sdk/domain/model.go:157-159 | appending an application whose ID is new keeps member IDs pairwise distinct |
| Model.RemoveFirstMatch | iso38500-governance-sdk/domain/model.go:163-172 | with unique IDs, removing the first match shrinks the list by one, leaves no member with that ID, keeps the IDs unique and keeps exactly the other members |
| Model.AddApplication | iso38500-governance-sdk/domain/model.go:145-160 | an invalid application or a duplicate ID fails with the portfolio unchanged; otherwise the application is appended and the stamp is set; names are not checked |
| Model.RemoveApplication | iso38500-governance-sdk/domain/model.go:163-172 | passes iff some member has the ID; removes the first such member and sets the stamp; otherwise NotFound with the portfolio unchanged |
| ValueObjects.ValidateRACIEntry | iso38500-governance-sdk/domain/value_objects.go:23-34 | passes iff activity, responsible and accountable are non-empty, checked in that order; consulted and informed are optional |
| ValueObjects.AddEntry | iso38500-governance-sdk/domain/value_objects.go:37-43 | the result is the entry's validation; on success exactly that entry is appended, on failure the matrix is unchanged |
| ValueObjects.AddEntryKeepsEntriesValid | iso38500-governance-sdk/domain/value_objects.go:37-43 | if every entry validates before AddEntry, every entry validates after |
| ValueObjects.AddEntriesKeepsEntriesValid | iso38500-governance-sdk/domain/value_objects.go:37-43 | the same invariant holds over any sequence of AddEntry calls |
| ValueObjects.ValidateKPI | iso38500-governance-sdk/domain/value_objects.go:68-76 | passes iff ID and name are non-empty, ID first |
| Events.Kind | iso38500-governance-sdk/domain/events.go:6-9 | every event is one of the seventeen listed variants |
| Events.EventType | iso38500-governance-sdk/domain/events.go:19-287 | each variant's tag is its type name without "Event" |
| Events.EventTypeDeterminesKind | iso38500-governance-sdk/domain/events.go:19-287 | the variant can be recovered from the tag |
| Events.EventTypeIdentifiesVariant | iso38500-governance-sdk/domain/events.go:19-287 | two events have the same tag iff they are the same variant, so the seventeen tags are pairwise distinct |
| Events.EventTime | iso38500-governance-sdk/domain/events.go:23-25 | every variant's `Time()` is its own `OccurredAt`, the instant `FindByTimeRange` filters on |
| MemoryApplications.StoredApplications | iso38500-governance-sdk/infrastructure/memory/application_repository.go:73-89 | the portfolio-index lookup returns at most one stored application per listed ID, each one that is present in the map |
| MemoryApplications.ApplicationRepository.constructor | iso38500-governance-sdk/infrastructure/memory/application_repository.go:19-24 | the store starts empty |
| MemoryApplications.ApplicationRepository.Save | iso38500-governance-sdk/infrastructure/memory/application_repository.go:27-33 | overwrites the entry under the application's ID |
| MemoryApplications.ApplicationRepository.FindByID | iso38500-governance-sdk/infrastructure/memory/application_repository.go:36-45 | found iff the ID is stored, and then returns the stored value; otherwise "application not found" |
| MemoryApplications.ApplicationRepository.FindByName | iso38500-governance-sdk/infrastructure/memory/application_repository.go:48-58 | found iff some stored application has that name, and returns one of them; otherwise "application not found" |
| MemoryApplications.ApplicationRepository.FindAll | iso38500-governance-sdk/infrastructure/memory/application_repository.go:61-70 | returns exactly the stored values, one per key |
| MemoryApplications.ApplicationRepository.FindByPortfolioID | iso38500-governance-sdk/infrastructure/memory/application_repository.go:73-89 | an unindexed portfolio gives an empty list; an indexed one gives the stored applications it lists |
| MemoryApplications.ApplicationRepository.FindByPortfolioIDIsAlwaysEmpty | iso38500-governance-sdk/infrastructure/memory/application_repository.go:73-89 | since nothing writes the portfolio index, the query always returns an empty list |
| MemoryApplications.ApplicationRepository.Update | iso38500-governance-sdk/infrastructure/memory/application_repository.go:92-102 | passes iff the ID is stored, then replaces that entry; otherwise NotFound and no change |
| MemoryApplications.ApplicationRepository.Delete | iso38500-governance-sdk/infrastructure/memory/application_repository.go:105-115 | passes iff the ID is stored; afterwards the ID is gone either way |
| MemoryApplications.ApplicationRepository.Exists | iso38500-governance-sdk/infrastructure/memory/application_repository.go:118-124 | true iff the ID is a key |
| MemoryPortfolios.StoredPortfolios | iso38500-governance-sdk/infrastructure/memory/portfolio_repository.go:51-67 | the owner-index lookup keeps only the listed portfolios still in the primary map |
| MemoryPortfolios.RemoveFirst | iso38500-governance-sdk/infrastructure/memory/portfolio_repository.go:95-116 | removing one occurrence from the owner index takes exactly one copy of the ID out, if present |
| MemoryPortfolios.RemoveFirstAt | iso38500-governance-sdk/infrastructure/memory/portfolio_repository.go:95-116 | the removed copy is the first one; the order of the others is kept |
| MemoryPortfolios.RepeatedSaveListsTwice | iso38500-governance-sdk/infrastructure/memory/portfolio_repository.go:27-36 | saving the same portfolio twice makes FindByOwner return it twice, because the owner index is not deduplicated |
| MemoryPortfolios.PortfolioRepository.constructor | iso38500-governance-sdk/infrastructure/memory/portfolio_repository.go:19-24 | the store and its owner index start empty |
| MemoryPortfolios.PortfolioRepository.Save | iso38500-governance-sdk/infrastructure/memory/portfolio_repository.go:27-36 | overwrites the entry and appends the ID to the owner's index on every call |
| MemoryPortfolios.PortfolioRepository.FindByID | iso38500-governance-sdk/infrastructure/memory/portfolio_repository.go:39-48 | found iff stored, returning the stored value; otherwise "portfolio not found" |
| MemoryPortfolios.PortfolioRepository.FindByOwner | iso38500-governance-sdk/infrastructure/memory/portfolio_repository.go:51-67 | the owner's indexed IDs, in order, resolved against the primary map, with missing ones skipped |
| MemoryPortfolios.PortfolioRepository.FindAll | iso38500-governance-sdk/infrastructure/memory/portfolio_repository.go:70-79 | exactly the stored portfolios, one per key |
| MemoryPortfolios.PortfolioRepository.Update | iso38500-governance-sdk/infrastructure/memory/portfolio_repository.go:82-92 | passes iff stored, then replaces the entry; the owner index is never touched |
| MemoryPortfolios.PortfolioRepository.Delete | iso38500-governance-sdk/infrastructure/memory/portfolio_repository.go:95-116 | passes iff stored; removes the entry and the first occurrence of the ID from its owner's index; otherwise no change |
| MemoryPortfolios.PortfolioRepository.Exists | iso38500-governance-sdk/infrastructure/memory/portfolio_repository.go:119-125 | true iff the ID is a key |
| MemoryPortfolios.PortfolioRepository.AddApplication | iso38500-governance-sdk/infrastructure/memory/portfolio_repository.go:128-151 | a missing portfolio or a duplicate member fails with no change; otherwise appends a placeholder application that holds only the ID |
| MemoryPortfolios.PortfolioRepository.RemoveApplication | iso38500-governance-sdk/infrastructure/memory/portfolio_repository.go:154-173 | removes the first member with the ID; a missing portfolio or member fails with no change |
| MemoryGovernance.ResolveByApplication | iso38500-governance-sdk/infrastructure/memory/governance_repository.go:49-63 | found iff the index has the application and its target is stored; each failure has its own message |
| MemoryGovernance.StaleIndexAfterReassignment | iso38500-governance-sdk/infrastructure/memory/governance_repository.go:27-63 | re-saving an agreement under a new application leaves the old index entry, so the lookup by the old application returns an agreement belonging to another application |
| MemoryGovernance.GovernanceRepository.constructor | iso38500-governance-sdk/infrastructure/memory/governance_repository.go:19-24 | both maps start empty |
| MemoryGovernance.GovernanceRepository.Save | iso38500-governance-sdk/infrastructure/memory/governance_repository.go:27-34 | overwrites the entry and points the application's index entry at it, so the lookup by application returns the last save |
| MemoryGovernance.GovernanceRepository.FindByID | iso38500-governance-sdk/infrastructure/memory/governance_repository.go:37-46 | found iff stored, returning the stored value; otherwise "governance agreement not found" |
| MemoryGovernance.GovernanceRepository.FindByApplicationID | iso38500-governance-sdk/infrastructure/memory/governance_repository.go:49-63 | the two-step lookup through the index, with both of its errors |
| MemoryGovernance.GovernanceRepository.FindAll | iso38500-governance-sdk/infrastructure/memory/governance_repository.go:66-75 | exactly the stored agreements, one per key |
| MemoryGovernance.GovernanceRepository.FindByStatus | iso38500-governance-sdk/infrastructure/memory/governance_repository.go:78-89 | exactly the stored agreements with that status, each once |
| MemoryGovernance.GovernanceRepository.Update | iso38500-governance-sdk/infrastructure/memory/governance_repository.go:92-102 | passes iff stored, then replaces the entry; the index is never touched; otherwise no change |
| MemoryGovernance.GovernanceRepository.Delete | iso38500-governance-sdk/infrastructure/memory/governance_repository.go:105-117 | passes iff stored; removes the agreement and its application's index entry, whatever that entry points to |
| MemoryGovernance.GovernanceRepository.Exists | iso38500-governance-sdk/infrastructure/memory/governance_repository.go:120-126 | true iff the ID is a key of the agreements map |
| MemoryEvents.FilterMembership | iso38500-governance-sdk/infrastructure/memory/event_repository.go:39-58 | a filter query keeps exactly the logged events that satisfy its test, and no more of them than the log holds |
| MemoryEvents.FilterAppend | iso38500-governance-sdk/infrastructure/memory/event_repository.go:39-58 | filtering a log that has grown gives the earlier answer followed by the answer for the new events |
| MemoryEvents.EventRepository.constructor | iso38500-governance-sdk/infrastructure/memory/event_repository.go:16-20 | the log starts empty |
| MemoryEvents.EventRepository.Save | iso38500-governance-sdk/infrastructure/memory/event_repository.go:23-26 | appends the event at the end |
| MemoryEvents.EventRepository.FindByAggregateID | iso38500-governance-sdk/infrastructure/memory/event_repository.go:29-36 | returns the whole log, whatever the argument |
| MemoryEvents.EventRepository.FindByEventType | iso38500-governance-sdk/infrastructure/memory/event_repository.go:39-47 | the events with that tag, in log order |
| MemoryEvents.EventRepository.FindByTimeRange | iso38500-governance-sdk/infrastructure/memory/event_repository.go:50-58 | the events strictly after start and strictly before end, in log order |
| MemoryEvents.EventRepository.Delete | iso38500-governance-sdk/infrastructure/memory/event_repository.go:61-64 | always passes and removes nothing |
| EvaluationService.AnalyzeVersionMaturity | iso38500-governance-sdk/domain/services.go:182-204 | in {-1, 0, 1}: -1 iff the version is empty, +1 iff it has at least three dot-separated parts; pre-release markers change nothing |
| EvaluationService.Tier | iso38500-governance-sdk/domain/services.go:207-245 | the per-category security points: 0 iff the category is empty, 2 iff its count passes the bonus bar |
| EvaluationService.AnalyzeSecurityProvisions | iso38500-governance-sdk/domain/services.go:207-245 | in [-2, 6]; -2 iff nothing is provisioned, 6 iff every bonus bar is passed |
| EvaluationService.AnalyzeDocumentationCompleteness | iso38500-governance-sdk/domain/services.go:248-272 | in [-1, 4]; -1 iff never updated and no functionality; 4 iff updated within 90 days with more than five functionalities |
| EvaluationService.AnalyzeApplicationAge | iso38500-governance-sdk/domain/services.go:275-300 | in [-2, 1]; 0 for a zero creation time; each value is tied to its age band, and +1 also needs an update within 90 days |
| EvaluationService.AnalyzeApplicationStatus | iso38500-governance-sdk/domain/services.go:303-316 | +1 iff active, -1 iff deprecated, -2 iff retired, 0 otherwise |
| EvaluationService.AdjustScoreWithVarianceIsClamp | iso38500-governance-sdk/domain/services.go:319-339 | the variance adjustment equals clamping the base score to [1, 5] whatever the factors |
| EvaluationService.HealthScore | iso38500-governance-sdk/domain/services.go:138-179 | the summed and clamped base score lies in [1, 5] |
| EvaluationService.AssessTechnicalHealth | iso38500-governance-sdk/domain/services.go:138-179 | code quality and documentation equal the base score; security and performance are the base plus the security or age delta, clamped to [1, 5]; test coverage lies in [10, 130] |
| EvaluationService.RetirementNeverImprovesHealth | iso38500-governance-sdk/domain/services.go:138-179 | the same application scores no higher on quality, security or performance when retired than when active |
| EvaluationService.BusinessAlignment | iso38500-governance-sdk/domain/services.go:433-477 | the alignment percentage lies in [0, 100] |
| EvaluationService.CostEfficiency | iso38500-governance-sdk/domain/services.go:480-532 | the cost-efficiency percentage lies in [0, 100] |
| EvaluationService.UserSatisfaction | iso38500-governance-sdk/domain/services.go:535-579 | the satisfaction percentage lies in [0, 100] |
| EvaluationService.AssessBusinessValue | iso38500-governance-sdk/domain/services.go:342-369 | all three percentages lie in [0, 100] |
| EvaluationService.GovernanceNeverLowersBusinessValue | iso38500-governance-sdk/domain/services.go:433-579 | having a governance agreement never lowers any of the three percentages |
| EvaluationService.GovernedActiveBudgetedIsCostEfficient | iso38500-governance-sdk/domain/services.go:480-532 | an active application whose agreement allocates a budget has cost efficiency of at least 85 |
| EvaluationService.DetermineRiskLevel | iso38500-governance-sdk/domain/services.go:582-595 | a listed level; cost efficiency below 50 gives Critical, below 70 High or Critical; Low, Medium and Critical each hold iff the score sum and cost efficiency satisfy the integer-mean bands |
| EvaluationService.LowRiskNeedsPerfectScores | iso38500-governance-sdk/domain/services.go:582-595 | on the 1 to 5 scale, Low risk needs all three scores at 5 and cost efficiency of at least 70 |
| EvaluationService.RecommendationRules | iso38500-governance-sdk/domain/services.go:598-646 | at most four recommendations, in the order security, quality, cost, retirement; each is present iff its trigger holds |
| EvaluationService.CriticalRiskIsAlwaysFlagged | iso38500-governance-sdk/domain/services.go:582-646 | a Critical assessment always recommends retirement; cost efficiency below 70 always recommends a cost review |
| EvaluationService.EvaluationOf | iso38500-governance-sdk/domain/services.go:46-80 | succeeds iff the application is stored and its agreement resolves; the assessment names the application and has a listed risk level |
| EvaluationService.AbandonedApplicationIsCritical | iso38500-governance-sdk/domain/services.go:46-80 | a retired, unversioned, unprovisioned and undocumented application is assessed Critical and told to retire |
| EvaluationService.EvaluateApplication | iso38500-governance-sdk/domain/services.go:46-80 | returns exactly EvaluationOf of the stores' contents |
| EvaluationService.TallyStep | iso38500-governance-sdk/domain/services.go:83-135 | the portfolio tally of a list extended by one member is one loop step on the earlier tally |
| EvaluationService.CountOutcome | iso38500-governance-sdk/domain/services.go:83-135 | the loop body's counter and histogram updates perform exactly that step |
| EvaluationService.RiskLevelsAreListed | iso38500-governance-sdk/domain/services.go:83-135 | an evaluated member always has a listed risk level |
| EvaluationService.RiskLevelsAreAllListed | iso38500-governance-sdk/domain/services.go:83-135 | the same fact, for every member at once |
| EvaluationService.TallyIsConsistent | iso38500-governance-sdk/domain/services.go:83-135 | active + deprecated <= evaluated <= members; the histogram holds only listed, positive counts and sums to the evaluated count |
| EvaluationService.UnevaluatedPortfolioCountsNothing | iso38500-governance-sdk/domain/services.go:83-135 | when no member can be evaluated, every count is zero and the histogram is empty |
| EvaluationService.UngovernedApplicationIsSkipped | iso38500-governance-sdk/domain/services.go:83-135 | a member without an agreement is skipped, not fatal |
| DomainTypes.Since | iso38500-governance-sdk/domain/services.go:655 | `time.Since` in int64 nanoseconds: exact when the elapsed time fits, the greatest or least `Duration` beyond |
| DomainTypes.AddNanoseconds | iso38500-governance-sdk/domain/services.go:656 | `totalAge += age` on int64: the exact sum when it fits, otherwise the sum shifted by 2^64 back into range |
| EvaluationService.SinceKeepsComparisons | iso38500-governance-sdk/domain/services.go:280-297 | comparing whole elapsed seconds with a day threshold agrees with comparing the saturated `time.Since` nanoseconds |
| EvaluationService.SumAgesIsExactModulo64Bits | iso38500-governance-sdk/domain/services.go:654-658 | the wrapping 64-bit `totalAge` equals the exact sum of the `time.Since` ages modulo 2^64 |
| EvaluationService.SumAgesAtLeast | iso38500-governance-sdk/domain/services.go:654-658 | the exact total of the ages is at least the count times a lower bound on the ages |
| EvaluationService.SumAgesAtMost | iso38500-governance-sdk/domain/services.go:654-658 | the exact total of the ages is at most the count times an upper bound on the ages |
| EvaluationService.SumAgesIsExactWithoutOverflow | iso38500-governance-sdk/domain/services.go:654-658 | with no negative age and an exact total that fits in a `Duration`, the 64-bit total does not wrap |
| EvaluationService.AverageAgeBetweenExtremes | iso38500-governance-sdk/domain/services.go:649-661 | when no age is negative and count times the largest age fits in 64 bits, the nanosecond average lies between the youngest and the oldest age |
| EvaluationService.ZeroTimeMemberMakesAverageNegative | iso38500-governance-sdk/domain/services.go:649-661 | a member with the zero `CreatedAt` has the saturated age of about 292 years, and next to any member of positive age the sum wraps and the average is negative |
| EvaluationService.CalculateAverageApplicationAge | iso38500-governance-sdk/domain/services.go:649-661 | the loop adds the saturated `time.Since` ages with 64-bit wrap-around and returns the truncating quotient in nanoseconds, 0 for an empty list |
| EvaluationService.TallyApplications | iso38500-governance-sdk/domain/services.go:83-135 | the counting loop computes exactly the tally of the portfolio's members |
| EvaluationService.EvaluatePortfolio | iso38500-governance-sdk/domain/services.go:83-135 | fails iff the portfolio is missing; otherwise the total counts every member, the counts are the tally, the age is the average, and active + deprecated <= histogram total <= total |
| DirectionService.ActionPlansFor | iso38500-governance-sdk/domain/services.go:738-762 | one plan per objective |
| DirectionService.ActionPlanShape | iso38500-governance-sdk/domain/services.go:738-762 | plan i is "ap-(i+1)", owned by "TBD", pending and due with its objective, with one pending "TBD" action "action-(i+1)-1" due 30 days earlier |
| DirectionService.PlanIDsDiffer | iso38500-governance-sdk/domain/services.go:738-762 | plans at different positions have different IDs, and so do their actions |
| DirectionService.CreateActionPlansFromObjectives | iso38500-governance-sdk/domain/services.go:738-762 | the fill loop returns exactly the plans of the objectives, with pairwise distinct IDs |
| DirectionService.DirectedChangesOnlyDirection | iso38500-governance-sdk/domain/services.go:676-697 | objectives, initiatives and plans are replaced wholesale and the stamp is set; vision, mission, resources, policies and the rest of the agreement stay |
| DirectionService.AllocatedChangesOnlyResources | iso38500-governance-sdk/domain/services.go:700-716 | budget and personnel are replaced and the stamp is set; technology allocations, strategy, plans and the rest stay |
| DirectionService.WithPoliciesKeepsGuidelinesAndStamp | iso38500-governance-sdk/domain/services.go:719-735 | policies, standards and procedures are replaced; guidelines, the direction stamp and the rest stay |
| DirectionService.SetStrategicDirection | iso38500-governance-sdk/domain/services.go:676-697 | passes iff the agreement is stored, which is then replaced by its directed version; otherwise the wrapped NotFound and no change |
| DirectionService.AllocateResources | iso38500-governance-sdk/domain/services.go:700-716 | passes iff stored, then stores the allocated version; otherwise the wrapped NotFound and no change |
| DirectionService.EstablishPolicies | iso38500-governance-sdk/domain/services.go:719-735 | passes iff stored, then stores the version with the new policies; otherwise the wrapped NotFound and no change |
| MonitoringService.IsKPITargetAchieved | iso38500-governance-sdk/domain/services.go:905-915 | for "efficiency" KPIs achieved iff value <= target, for any other category iff value >= target |
| MonitoringService.MeasurementForIsJudgedAfresh | iso38500-governance-sdk/domain/services.go:783-842 | a stored measurement is returned with its achievement recomputed by the rule; a missing one becomes a zero-valued "No measurement available" record |
| MonitoringService.MissingEfficiencyMeasurementIsAchieved | iso38500-governance-sdk/domain/services.go:783-842 | a missing measurement of an efficiency KPI with a non-negative target counts as achieved |
| MonitoringService.DemoMeasurementsFollowTheRule | iso38500-governance-sdk/domain/services.go:783-842 | the two fallback measurements are consistent with value >= target |
| MonitoringService.KPIMeasurementsOf | iso38500-governance-sdk/domain/services.go:783-842 | measurements are returned only for a stored agreement |
| MonitoringService.MonitorKPIs | iso38500-governance-sdk/domain/services.go:783-842 | a missing agreement fails; without either store the fallback pair; a failing KPI store is wrapped; otherwise one judged measurement per KPI, in order |
| MonitoringService.ComplianceOf | iso38500-governance-sdk/domain/services.go:845-853 | succeeds iff the agreement is stored |
| MonitoringService.ComplianceFollowsKPIs | iso38500-governance-sdk/domain/services.go:783-853 | whenever KPI monitoring succeeds, compliance monitoring succeeds as well |
| MonitoringService.MonitorCompliance | iso38500-governance-sdk/domain/services.go:845-853 | returns the stored agreement's compliance monitoring, or NotFound |
| MonitoringService.ConvertImpactToNumeric | iso38500-governance-sdk/domain/services.go:918-931 | the weight lies in [1, 4]; an unknown impact weighs 1 |
| MonitoringService.GetRiskThreshold | iso38500-governance-sdk/domain/services.go:934-947 | the threshold lies in [2, 12]; an unknown level gets 2 |
| MonitoringService.WeightsAndThresholdsIncrease | iso38500-governance-sdk/domain/services.go:918-947 | weights and thresholds strictly increase from low to critical |
| MonitoringService.DetermineRiskStatus | iso38500-governance-sdk/domain/services.go:950-961 | Critical iff value >= 1.5 x threshold, Warning iff threshold <= value < 1.5 x threshold, Normal iff value < threshold |
| MonitoringService.HighLevelRisksAreNormal | iso38500-governance-sdk/domain/services.go:950-961 | with a probability in [0, 1], risks of high or critical level are always Normal |
| MonitoringService.StatusGrowsWithProbability | iso38500-governance-sdk/domain/services.go:950-961 | raising the probability never lowers the status |
| MonitoringService.IndicatorIsClassifiedByItsOwnFigures | iso38500-governance-sdk/domain/services.go:856-902 | each computed indicator's status agrees with its own value and threshold |
| MonitoringService.DemoTechnicalDebtDisagreesWithTheRule | iso38500-governance-sdk/domain/services.go:856-902 | the fallback technical-debt indicator lies below its threshold yet is not Normal |
| MonitoringService.RiskMonitoringOf | iso38500-governance-sdk/domain/services.go:856-902 | fails iff a configured risk store fails |
| MonitoringService.MonitorRisks | iso38500-governance-sdk/domain/services.go:856-902 | without a store the fallback record; a failing store is wrapped; otherwise one indicator per risk, in order; the agreement is never looked up |
| Aggregates.DuplicateError | iso38500-governance-sdk/domain/aggregates.go:55-74 | no error iff no member shares the ID or the name; otherwise one of the two AlreadyExists messages |
| Aggregates.NameClashReportedBeforeLaterIDClash | iso38500-governance-sdk/domain/aggregates.go:55-74 | the scan reports per member: a name clash on an earlier member wins over an ID clash on a later one |
| Aggregates.AdmissionOf | iso38500-governance-sdk/domain/aggregates.go:55-74 | admits iff the application validates, shares no ID or name with a member and names an agreement |
| Aggregates.AdmissionKeepsMembersDistinct | iso38500-governance-sdk/domain/aggregates.go:55-89 | admission keeps member IDs and names pairwise distinct |
| Aggregates.Replaced | iso38500-governance-sdk/domain/aggregates.go:114-136 | replacing a member keeps the length |
| Aggregates.ReplacedKeepsIDsUnique | iso38500-governance-sdk/domain/aggregates.go:114-136 | replacing a member keeps IDs unique and every other member in place |
| Aggregates.UpdateCanDuplicateNames | iso38500-governance-sdk/domain/aggregates.go:114-136 | updating a member to another member's name is accepted and breaks name uniqueness |
| Aggregates.ApplicationPortfolioAggregate.constructor | iso38500-governance-sdk/domain/aggregates.go:10-13 | holds the given portfolio and events |
| Aggregates.ApplicationPortfolioAggregate.AddApplication | iso38500-governance-sdk/domain/aggregates.go:55-89 | the result is AdmissionOf; on success the application and one ApplicationAddedToPortfolio event are appended and names stay unique; a failure changes nothing |
| Aggregates.ApplicationPortfolioAggregate.RemoveApplication | iso38500-governance-sdk/domain/aggregates.go:92-111 | passes iff a member has the ID; removes the first such member, keeps the others in order and records the removed member's name in one event; otherwise NotFound and no change |
| Aggregates.ApplicationPortfolioAggregate.UpdateApplication | iso38500-governance-sdk/domain/aggregates.go:114-136 | an invalid application or an absent ID fails with no change; otherwise the member is replaced in place and one ApplicationUpdated event is appended |
| Aggregates.ApplicationPortfolioAggregate.ClearDomainEvents | iso38500-governance-sdk/domain/aggregates.go:149-151 | empties the event list and keeps the portfolio |
| Aggregates.PortfolioArgumentsError | iso38500-governance-sdk/domain/aggregates.go:16-52 | no error iff ID, name and owner are all non-empty |
| Aggregates.NewApplicationPortfolioAggregate | iso38500-governance-sdk/domain/aggregates.go:16-52 | fails iff an argument is empty, with the first argument error; otherwise a new portfolio with no members or KPIs and exactly one PortfolioCreated event |
| Aggregates.DraftAgreement | iso38500-governance-sdk/domain/aggregates.go:165-200 | a Draft agreement, version "1.0", with the given ID, application and title |
| Aggregates.AgreementArgumentsError | iso38500-governance-sdk/domain/aggregates.go:165-200 | no error iff ID, application ID and title are non-empty, and then the draft validates |
| Aggregates.StepNeverGoesBack | iso38500-governance-sdk/domain/aggregates.go:273-304 | no operation moves the status backwards; a change advances it by exactly one stage, from Draft or Approved |
| Aggregates.ActiveNeedsApprovalThenActivation | iso38500-governance-sdk/domain/aggregates.go:273-304 | from Draft, Active is reached only by an approval followed later by an activation |
| Aggregates.GovernanceAgreementAggregate.constructor | iso38500-governance-sdk/domain/aggregates.go:159-162 | holds the given agreement and events |
| Aggregates.GovernanceAgreementAggregate.UpdateStrategy | iso38500-governance-sdk/domain/aggregates.go:203-214 | replaces only the strategy, stamps the agreement and appends one update event naming "strategy" |
| Aggregates.GovernanceAgreementAggregate.UpdateAcquisition | iso38500-governance-sdk/domain/aggregates.go:217-228 | the same, for acquisition |
| Aggregates.GovernanceAgreementAggregate.UpdatePerformance | iso38500-governance-sdk/domain/aggregates.go:231-242 | the same, for performance |
| Aggregates.GovernanceAgreementAggregate.UpdateConformance | iso38500-governance-sdk/domain/aggregates.go:245-256 | the same, for conformance |
| Aggregates.GovernanceAgreementAggregate.UpdateImplementation | iso38500-governance-sdk/domain/aggregates.go:259-270 | the same, for implementation |
| Aggregates.GovernanceAgreementAggregate.Approve | iso38500-governance-sdk/domain/aggregates.go:273-287 | passes iff Draft, then Approved with one event; the new status is the transition function's; otherwise InvalidState and no change |
| Aggregates.GovernanceAgreementAggregate.Activate | iso38500-governance-sdk/domain/aggregates.go:290-304 | passes iff Approved, then Active with one event; otherwise InvalidState and no change |
| Aggregates.GovernanceAgreementAggregate.ClearDomainEvents | iso38500-governance-sdk/domain/aggregates.go:317-319 | empties the event list and keeps the agreement |
| Aggregates.NewGovernanceAgreementAggregate | iso38500-governance-sdk/domain/aggregates.go:165-200 | fails iff an argument is empty; otherwise the draft agreement with exactly one GovernanceAgreementCreated event |
| Publishing.PublishAll | iso38500-governance-sdk/application/portfolio_service.go:55-61 | the aggregate's events are appended to the log in order |
| PortfolioService.CreatePortfolio | iso38500-governance-sdk/application/portfolio_service.go:35-64 | fails iff an argument is empty, with the wrapped error and nothing stored; otherwise stores the new portfolio, indexes it under its owner and logs PortfolioCreated |
| PortfolioService.AdmissionToPortfolio | iso38500-governance-sdk/application/portfolio_service.go:67-91 | passes iff the application is stored, its agreement resolves, the portfolio exists and the application is not yet a member |
| PortfolioService.AddApplicationToPortfolio | iso38500-governance-sdk/application/portfolio_service.go:67-117 | the result is AdmissionToPortfolio; on success the stored application record is appended, the portfolio is re-indexed, one event is logged and member IDs stay unique; a failure changes nothing |
| PortfolioService.RemoveApplicationFromPortfolio | iso38500-governance-sdk/application/portfolio_service.go:120-164 | a missing portfolio or member fails with no change; otherwise removes the first match, saves, and logs the member's name |
| PortfolioService.GetPortfolio | iso38500-governance-sdk/application/portfolio_service.go:167-173 | the stored portfolio, or the wrapped NotFound |
| PortfolioService.UpdatePortfolio | iso38500-governance-sdk/application/portfolio_service.go:194-211 | changes only the name, description and stamp; owner and members are kept; a missing portfolio fails with no change |
| PortfolioService.DeletePortfolio | iso38500-governance-sdk/application/portfolio_service.go:214-231 | passes iff the portfolio exists and has no members; a portfolio with members is refused with InvalidState; on success the entry is gone and the first occurrence of its ID leaves its owner's index |
| GovernanceService.CreateGovernanceAgreement | iso38500-governance-sdk/application/governance_service.go:41-70 | fails if the application is missing or an argument is empty; otherwise stores a Draft agreement, overwriting any with that ID, findable by its application, and logs GovernanceAgreementCreated |
| GovernanceService.UpdateStrategy | iso38500-governance-sdk/application/governance_service.go:73-87 | passes iff the agreement is stored, then replaces exactly the strategy field; otherwise no change |
| GovernanceService.UpdateAcquisition | iso38500-governance-sdk/application/governance_service.go:90-104 | the same, for acquisition |
| GovernanceService.UpdatePerformance | iso38500-governance-sdk/application/governance_service.go:107-121 | the same, for performance |
| GovernanceService.UpdateConformance | iso38500-governance-sdk/application/governance_service.go:124-138 | the same, for conformance |
| GovernanceService.UpdateImplementation | iso38500-governance-sdk/application/governance_service.go:141-155 | the same, for implementation |
| GovernanceService.ApproveGovernanceAgreement | iso38500-governance-sdk/application/governance_service.go:158-190 | passes iff stored as Draft, then stored as Approved with one event logged; the stored status follows the transition function; otherwise an error and no change |
| GovernanceService.ActivateGovernanceAgreement | iso38500-governance-sdk/application/governance_service.go:193-225 | passes iff stored as Approved, then stored as Active with one event logged; otherwise an error and no change |
| GovernanceService.EvaluateApplication | iso38500-governance-sdk/application/governance_service.go:228-235 | the evaluation's result, with its error wrapped |
| GovernanceService.EvaluatePortfolio | iso38500-governance-sdk/application/governance_service.go:238-245 | the portfolio roll-up, with its error wrapped |
| GovernanceService.SetStrategicDirection | iso38500-governance-sdk/application/governance_service.go:248-255 | the direction service's update, with its error wrapped |
| GovernanceService.AllocateResources | iso38500-governance-sdk/application/governance_service.go:258-265 | the resource update, with its error wrapped |
| GovernanceService.EstablishPolicies | iso38500-governance-sdk/application/governance_service.go:268-275 | the policy update, with its error wrapped |
| GovernanceService.MonitorGovernance | iso38500-governance-sdk/application/governance_service.go:278-304 | succeeds iff all three monitors succeed, and then carries exactly their outputs; the first failure, in KPI, compliance, risk order, is wrapped |
| GovernanceService.MonitoringFailsOnlyAtKPIsOrRisks | iso38500-governance-sdk/application/governance_service.go:278-304 | the compliance step cannot fail once the KPIs succeeded; without a risk store the risk step cannot fail |
| GovernanceService.GetGovernanceAgreement | iso38500-governance-sdk/application/governance_service.go:307-313 | the stored agreement, or the wrapped NotFound |
| ChangeManagementService.ChangeRequestStore.constructor | iso38500-governance-sdk/domain/repositories.go:46-55 | the store starts empty |
| ChangeManagementService.ChangeRequestStore.Save | iso38500-governance-sdk/domain/repositories.go:46-55 | stores the request under its ID |
| ChangeManagementService.ChangeRequestStore.FindByID | iso38500-governance-sdk/domain/repositories.go:46-55 | found iff stored |
| ChangeManagementService.ChangeRequestStore.Update | iso38500-governance-sdk/domain/repositories.go:46-55 | passes iff stored, then replaces it; otherwise no change |
| ChangeManagementService.IncidentStore.constructor | iso38500-governance-sdk/domain/repositories.go:58-67 | the store starts empty |
| ChangeManagementService.IncidentStore.Save | iso38500-governance-sdk/domain/repositories.go:58-67 | stores the incident under its ID |
| ChangeManagementService.IncidentStore.FindByID | iso38500-governance-sdk/domain/repositories.go:58-67 | found iff stored |
| ChangeManagementService.IncidentStore.Update | iso38500-governance-sdk/domain/repositories.go:58-67 | passes iff stored, then replaces it; otherwise no change |
| ChangeManagementService.AuditStore.constructor | iso38500-governance-sdk/domain/repositories.go:70-79 | the store starts empty |
| ChangeManagementService.AuditStore.Save | iso38500-governance-sdk/domain/repositories.go:70-79 | stores the audit under its ID |
| ChangeManagementService.AuditStore.FindByID | iso38500-governance-sdk/domain/repositories.go:70-79 | found iff stored |
| ChangeManagementService.AuditStore.Update | iso38500-governance-sdk/domain/repositories.go:70-79 | passes iff stored, then replaces it; otherwise no change |
| ChangeManagementService.NewChangeRequest | iso38500-governance-sdk/application/change_management_service.go:38-65 | a new request is Draft with no approvals |
| ChangeManagementService.SubmitOf | iso38500-governance-sdk/application/change_management_service.go:163-182 | submission succeeds iff the request is Draft; otherwise InvalidState |
| ChangeManagementService.ReviewOf | iso38500-governance-sdk/application/change_management_service.go:87-160 | a review succeeds iff the request is Submitted; otherwise InvalidState |
| ChangeManagementService.ReviewAppendsOneApproval | iso38500-governance-sdk/application/change_management_service.go:87-160 | a review keeps the earlier approvals and appends exactly one, carrying the reviewer and the verdict; only approvals, status and stamp change |
| ChangeManagementService.ApplyChangeKeepsReviewedAtMostOnce | iso38500-governance-sdk/application/change_management_service.go:87-182 | every service step keeps "unreviewed requests have no approvals, reviewed ones exactly one" |
| ChangeManagementService.CreatedRequestIsReviewedAtMostOnce | iso38500-governance-sdk/application/change_management_service.go:87-182 | after any sequence of submissions and reviews, a request holds at most one approval |
| ChangeManagementService.NewChangeRequestIsUnreviewed | iso38500-governance-sdk/application/change_management_service.go:38-65 | a new request satisfies that invariant |
| ChangeManagementService.NewIncident | iso38500-governance-sdk/application/change_management_service.go:185-226 | a reported incident is Open |
| ChangeManagementService.ResolveOf | iso38500-governance-sdk/application/change_management_service.go:229-266 | resolution succeeds iff the incident is neither Resolved nor Closed, then it is Resolved with time-to-resolve = the saturated `time.Since` of its creation, in nanoseconds |
| ChangeManagementService.ResolveIsRefusedTheSecondTime | iso38500-governance-sdk/application/change_management_service.go:229-266 | resolving a resolved incident again is always refused |
| ChangeManagementService.NewAudit | iso38500-governance-sdk/application/change_management_service.go:269-293 | a new audit is Planned with no findings |
| ChangeManagementService.CompleteOf | iso38500-governance-sdk/application/change_management_service.go:296-339 | completion succeeds iff the audit is in progress, then it is Completed with the command's findings |
| ChangeManagementService.CreatedAuditCannotBeCompleted | iso38500-governance-sdk/application/change_management_service.go:269-339 | no operation moves an audit in progress, so an audit the service created cannot be completed |
| ChangeManagementService.FindingDescriptions | iso38500-governance-sdk/application/change_management_service.go:316-320 | the event's findings are the descriptions of the command's findings, same length and order |
| ChangeManagementService.CreateChangeRequest | iso38500-governance-sdk/application/change_management_service.go:38-84 | fails iff the application is missing, with nothing stored; otherwise stores the new Draft request and logs ChangeRequestCreated |
| ChangeManagementService.SubmitChangeRequest | iso38500-governance-sdk/application/change_management_service.go:163-182 | a missing request fails; otherwise the stored request becomes SubmitOf's result, or the error with no change |
| ChangeManagementService.Review | iso38500-governance-sdk/application/change_management_service.go:87-160 | a missing request fails; otherwise the stored request becomes ReviewOf's result, or the error with no change |
| ChangeManagementService.ApproveChangeRequest | iso38500-governance-sdk/application/change_management_service.go:87-128 | passes iff the request is stored and Submitted, then it is Approved with one approval appended and one event logged; otherwise no change |
| ChangeManagementService.RejectChangeRequest | iso38500-governance-sdk/application/change_management_service.go:131-160 | passes iff the request is stored and Submitted, then it is Rejected with one approval appended; no event; otherwise no change |
| ChangeManagementService.ReportIncident | iso38500-governance-sdk/application/change_management_service.go:185-226 | fails iff the application is missing; otherwise stores the Open incident and logs IncidentReported |
| ChangeManagementService.ResolveIncident | iso38500-governance-sdk/application/change_management_service.go:229-266 | a missing incident fails; otherwise ResolveOf's result is stored and IncidentResolved carries the time to resolve; a refusal changes nothing |
| ChangeManagementService.CreateAudit | iso38500-governance-sdk/application/change_management_service.go:269-293 | fails iff the application is missing; otherwise stores the Planned audit |
| ChangeManagementService.CompleteAudit | iso38500-governance-sdk/application/change_management_service.go:296-339 | a missing audit fails; otherwise CompleteOf's result is stored and one AuditCompleted event lists the finding descriptions in order; a refusal changes nothing |

## Left out

- Concurrency: the `sync.RWMutex` locking of the stores and every `context.Context` are left out, and all stores are single-threaded.
- The wall clock: `time.Now`, `time.Since` and every `UpdatedAt`, `LastDirected` or `OccurredAt` stamp take an explicit `now`. This includes the two aggregate constructors, which read the clock in Go.
- `AddDate(0, 0, -30)` on an action's deadline is modelled as 30 days of 86400 seconds. Calendar and time-zone effects are not modelled.
- Event-save failures: Go prints them and carries on. The in-memory event log cannot fail, so the printing branch is not modelled.
- Store write failures: the in-memory application, portfolio and agreement stores never fail on `Save`, so the services' save-error branches are unreachable here and are not modelled.
- EvaluationService.AssessBusinessValue: the `UsageMetrics` figures (`calculateUsageMetrics`, services.go:372-430) are left out. Their `int(float64(x) * 1.3)` truncations and uptime sums depend on IEEE rounding, and nothing downstream reads them.
- KPI values, targets, risk probabilities, impact weights and thresholds are `real`s, so float64 rounding is abstracted away. The business-value percentages and health scores are integers in Go and are integers here.
- EvaluationService.BusinessAlignment, EvaluationService.CostEfficiency, EvaluationService.UserSatisfaction: each contract states only the [0, 100] range. The individual bonuses are stated by GovernanceNeverLowersBusinessValue and GovernedActiveBudgetedIsCostEfficient.
- The risk heat maps and mitigation tracking of `MonitorRisks` are always empty in the source and are not carried.
- `ListPortfolios`, `ListPortfoliosByOwner` and `ListGovernanceAgreements` forward to the store's `FindAll` and `FindByOwner`, which are modelled; the forwards themselves are not.
- `GetChangeRequestsByApplication`, `GetIncidentsByApplication` and `GetAuditsByApplication` are not modelled. They forward to store queries that have no implementation in the SDK.
- The change-request, incident and audit stores exist in the SDK only as interfaces. Here each is a map from ID to record: it overwrites on save, like the in-memory stores, and refuses to update a missing record. Their not-found messages ("change request not found", "incident not found", "audit not found") are chosen here.
- The service-level `Update*` component setters in governance_service.go neither stamp the agreement nor raise an event. This matches the code, which bypasses the aggregate.
- Free-text strings in recommendations, action plans, fallback records and events are carried as constants. Nothing is proved about them beyond IDs, "TBD" and the event tags.
- The MCP server, the example program, JSON encoding and all printing are not part of this model.
- Sub-second instants: a `time.Time` here is whole seconds, so every `time.Since` is a multiple of 10^9 nanoseconds. The averaging itself divides nanoseconds, as Go does.
- `time.Since` reads the monotonic clock reading when one is present; here it is the difference of two wall-clock instants.
