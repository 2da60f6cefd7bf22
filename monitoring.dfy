/** The monitoring principle: KPI achievement, compliance configuration and
    risk indicators. The KPI, measurement and risk stores have no
    implementation in the SDK; each is given as the answer it would return,
    with `None` standing for a store that is not configured. */
module MonitoringService {
  import opened Wrappers
  import opened DomainTypes
  import MemoryGovernance

  // ------------------------------------------------------------------- KPIs

  /** `isKPITargetAchieved`: lower is better for "efficiency" KPIs, higher is
      better for "performance" and every other category. */
  function IsKPITargetAchieved(kpi: KPI, m: KPIMeasurement): (achieved: bool)
    ensures kpi.category == "efficiency" ==> (achieved <==> m.value <= kpi.target)
    ensures kpi.category != "efficiency" ==> (achieved <==> m.value >= kpi.target)
  {
    match kpi.category
    case "performance" => m.value >= kpi.target
    case "efficiency" => m.value <= kpi.target
    case _ => m.value >= kpi.target
  }

  /** The fixed answer `MonitorKPIs` gives when either store is missing. */
  function DemoMeasurements(now: Time): seq<KPIMeasurement>
  {
    [KPIMeasurement("kpi-001", 95.5, 100.0, false, now, "Demo KPI measurement"),
     KPIMeasurement("kpi-002", 99.2, 98.0, true, now, "Demo KPI measurement")]
  }

  /** The measurement reported for one KPI: the latest stored one, or a zero
      placeholder at the KPI's target when there is none, judged afresh
      against the KPI's own target. */
  function MeasurementFor(kpi: KPI, latest: map<string, KPIMeasurement>, now: Time): (m: KPIMeasurement)
  {
    var found := if kpi.id in latest then latest[kpi.id]
                 else KPIMeasurement(kpi.id, 0.0, kpi.target, false, now, "No measurement available");
    found.(achieved := IsKPITargetAchieved(kpi, found))
  }

  /** A reported measurement keeps what the store recorded except the
      achievement flag, which always follows the KPI's rule; without a
      stored measurement the report is a zero value at the KPI's target. */
  lemma MeasurementForIsJudgedAfresh(kpi: KPI, latest: map<string, KPIMeasurement>, now: Time)
    ensures var m := MeasurementFor(kpi, latest, now);
            && m.achieved == IsKPITargetAchieved(kpi, m)
            && (kpi.id in latest ==> m == latest[kpi.id].(achieved := m.achieved))
            && (kpi.id !in latest ==>
                  m == KPIMeasurement(kpi.id, 0.0, kpi.target, m.achieved, now, "No measurement available"))
  {
  }

  /** A missing measurement still counts as achieved for an efficiency KPI
      whose target is not negative, since the placeholder value 0 is at or
      below it. */
  lemma MissingEfficiencyMeasurementIsAchieved(kpi: KPI, latest: map<string, KPIMeasurement>, now: Time)
    requires kpi.id !in latest && kpi.category == "efficiency" && kpi.target >= 0.0
    ensures MeasurementFor(kpi, latest, now).achieved
  {
  }

  /** The demo answer's flags agree with the rule for non-efficiency KPIs
      at the listed targets. */
  lemma DemoMeasurementsFollowTheRule(now: Time)
    ensures forall m :: m in DemoMeasurements(now) ==> (m.achieved <==> m.value >= m.target)
  {
    var ms := DemoMeasurements(now);
    assert ms[0].value < ms[0].target && ms[1].value >= ms[1].target;
  }

  const AgreementNotFound := "failed to find governance agreement: "

  /** The answer `MonitorKPIs` gives for a given agreement table and stores. */
  function KPIMeasurementsOf(agreements: map<GovernanceAgreementID, GovernanceAgreement>,
                             agreementID: GovernanceAgreementID, kpiRepo: Option<Result<seq<KPI>>>,
                             measurementRepo: Option<map<string, KPIMeasurement>>, now: Time)
    : (r: Result<seq<KPIMeasurement>>)
    ensures r.Ok? ==> agreementID in agreements
  {
    if agreementID !in agreements then Err(NotFound(AgreementNotFound + "governance agreement not found"))
    else if kpiRepo.None? || measurementRepo.None? then Ok(DemoMeasurements(now))
    else
      match kpiRepo.value
      case Err(e) => Err(Wrap("failed to find KPIs: ", e))
      case Ok(kpis) => Ok(seq(|kpis|, i requires 0 <= i < |kpis| => MeasurementFor(kpis[i], measurementRepo.value, now)))
  }

  /** `MonitorKPIs`: the agreement must exist; then either the demo answer,
      or one judged measurement per KPI in the order the KPI store lists
      them. */
  method MonitorKPIs(agreementRepo: MemoryGovernance.GovernanceRepository, agreementID: GovernanceAgreementID,
                     kpiRepo: Option<Result<seq<KPI>>>, measurementRepo: Option<map<string, KPIMeasurement>>,
                     now: Time)
    returns (r: Result<seq<KPIMeasurement>>)
    ensures agreementID !in agreementRepo.agreements ==>
              r == Err(NotFound(AgreementNotFound + "governance agreement not found"))
    ensures agreementID in agreementRepo.agreements && (kpiRepo.None? || measurementRepo.None?) ==>
              r == Ok(DemoMeasurements(now))
    ensures agreementID in agreementRepo.agreements && kpiRepo.Some? && measurementRepo.Some? ==>
              match kpiRepo.value
              case Err(e) => r == Err(Wrap("failed to find KPIs: ", e))
              case Ok(kpis) =>
                r.Ok? && |r.value| == |kpis|
                && forall i :: 0 <= i < |kpis| ==> r.value[i] == MeasurementFor(kpis[i], measurementRepo.value, now)
    ensures r == KPIMeasurementsOf(agreementRepo.agreements, agreementID, kpiRepo, measurementRepo, now)
  {
    var g := agreementRepo.FindByID(agreementID);
    if g.Err? {
      return Err(Wrap(AgreementNotFound, g.error));
    }
    if kpiRepo.None? || measurementRepo.None? {
      return Ok(DemoMeasurements(now));
    }
    if kpiRepo.value.Err? {
      return Err(Wrap("failed to find KPIs: ", kpiRepo.value.error));
    }
    var kpis := kpiRepo.value.value;
    var latest := measurementRepo.value;
    var measurements: seq<KPIMeasurement> := [];
    var i := 0;
    while i < |kpis|
      invariant 0 <= i <= |kpis|
      invariant |measurements| == i
      invariant forall k :: 0 <= k < i ==> measurements[k] == MeasurementFor(kpis[k], latest, now)
    {
      var kpi := kpis[i];
      var measurement := if kpi.id in latest then latest[kpi.id]
                         else KPIMeasurement(kpi.id, 0.0, kpi.target, false, now, "No measurement available");
      measurement := measurement.(achieved := IsKPITargetAchieved(kpi, measurement));
      measurements := measurements + [measurement];
      i := i + 1;
    }
    assert measurements == seq(|kpis|, k requires 0 <= k < |kpis| => MeasurementFor(kpis[k], latest, now));
    r := Ok(measurements);
  }

  // ------------------------------------------------------------- compliance

  /** The answer `MonitorCompliance` gives for a given agreement table. */
  function ComplianceOf(agreements: map<GovernanceAgreementID, GovernanceAgreement>,
                        agreementID: GovernanceAgreementID): (r: Result<ComplianceMonitoring>)
    ensures r.Ok? <==> agreementID in agreements
  {
    if agreementID !in agreements then Err(NotFound(AgreementNotFound + "governance agreement not found"))
    else Ok(agreements[agreementID].conformance.complianceMonitoring)
  }

  /** Once the KPI monitor has found the agreement, the compliance monitor
      finds it too: within one monitoring round the compliance step cannot
      be the one that fails. */
  lemma ComplianceFollowsKPIs(agreements: map<GovernanceAgreementID, GovernanceAgreement>,
                              agreementID: GovernanceAgreementID, kpiRepo: Option<Result<seq<KPI>>>,
                              measurementRepo: Option<map<string, KPIMeasurement>>, now: Time)
    requires KPIMeasurementsOf(agreements, agreementID, kpiRepo, measurementRepo, now).Ok?
    ensures ComplianceOf(agreements, agreementID).Ok?
  {
  }

  /** `MonitorCompliance`: the compliance-monitoring configuration of the
      stored agreement. */
  method MonitorCompliance(agreementRepo: MemoryGovernance.GovernanceRepository, agreementID: GovernanceAgreementID)
    returns (r: Result<ComplianceMonitoring>)
    ensures r.Ok? <==> agreementID in agreementRepo.agreements
    ensures r.Ok? ==> r.value == agreementRepo.agreements[agreementID].conformance.complianceMonitoring
    ensures r.Err? ==> r == Err(NotFound(AgreementNotFound + "governance agreement not found"))
    ensures r == ComplianceOf(agreementRepo.agreements, agreementID)
  {
    var g := agreementRepo.FindByID(agreementID);
    if g.Err? {
      return Err(Wrap(AgreementNotFound, g.error));
    }
    r := Ok(g.value.conformance.complianceMonitoring);
  }

  // ------------------------------------------------------------------ risks

  /** `convertImpactToNumeric`: 1 to 4 from low to critical, 1 for any other
      impact. */
  function ConvertImpactToNumeric(impact: RiskImpact): (w: real)
    ensures 1.0 <= w <= 4.0
    ensures impact.ImpactUnlisted? ==> w == 1.0
  {
    match impact
    case ImpactLow => 1.0
    case ImpactMedium => 2.0
    case ImpactHigh => 3.0
    case ImpactCritical => 4.0
    case ImpactUnlisted(_) => 1.0
  }

  /** `getRiskThreshold`: 2, 4, 8 and 12 from low to critical, 2 for any
      other level. */
  function GetRiskThreshold(level: RiskLevel): (t: real)
    ensures 2.0 <= t <= 12.0
    ensures level.RiskLevelUnlisted? ==> t == 2.0
  {
    match level
    case RiskLow => 2.0
    case RiskMedium => 4.0
    case RiskHigh => 8.0
    case RiskCritical => 12.0
    case RiskLevelUnlisted(_) => 2.0
  }

  /** Both tables grow strictly from the low to the critical entry. */
  lemma WeightsAndThresholdsIncrease()
    ensures ConvertImpactToNumeric(ImpactLow) < ConvertImpactToNumeric(ImpactMedium)
            < ConvertImpactToNumeric(ImpactHigh) < ConvertImpactToNumeric(ImpactCritical)
    ensures GetRiskThreshold(RiskLow) < GetRiskThreshold(RiskMedium)
            < GetRiskThreshold(RiskHigh) < GetRiskThreshold(RiskCritical)
  {
  }

  /** The current value of a risk: its probability times its impact weight. */
  function RiskValue(risk: Risk): real
  {
    risk.probability * ConvertImpactToNumeric(risk.impact)
  }

  /** `determineRiskStatus`: critical at one and a half times the level's
      threshold, warning at the threshold, normal below it. */
  function DetermineRiskStatus(risk: Risk): (s: RiskStatus)
    ensures s == RiskStatusCritical <==> RiskValue(risk) >= 1.5 * GetRiskThreshold(risk.level)
    ensures s == RiskStatusWarning <==>
              GetRiskThreshold(risk.level) <= RiskValue(risk) < 1.5 * GetRiskThreshold(risk.level)
    ensures s == RiskStatusNormal <==> RiskValue(risk) < GetRiskThreshold(risk.level)
  {
    var value := RiskValue(risk);
    var threshold := GetRiskThreshold(risk.level);
    if value >= threshold * 1.5 then RiskStatusCritical
    else if value >= threshold then RiskStatusWarning
    else RiskStatusNormal
  }

  /** The position of a status on the normal-warning-critical scale. */
  function Severity(s: RiskStatus): nat
  {
    match s
    case RiskStatusNormal => 0
    case RiskStatusWarning => 1
    case RiskStatusCritical => 2
  }

  /** With a probability inside [0, 1] the value never exceeds 4, so a risk
      rated high or critical is always reported normal. */
  lemma HighLevelRisksAreNormal(risk: Risk)
    requires 0.0 <= risk.probability <= 1.0
    requires risk.level == RiskHigh || risk.level == RiskCritical
    ensures DetermineRiskStatus(risk) == RiskStatusNormal
  {
    assert RiskValue(risk) <= 4.0 by {
      var w := ConvertImpactToNumeric(risk.impact);
      assert risk.probability * w <= 1.0 * w;
    }
  }

  /** A more probable risk of the same impact and level is never reported
      less severe. */
  lemma StatusGrowsWithProbability(a: Risk, b: Risk)
    requires a.impact == b.impact && a.level == b.level && a.probability <= b.probability
    ensures Severity(DetermineRiskStatus(a)) <= Severity(DetermineRiskStatus(b))
  {
    var w := ConvertImpactToNumeric(a.impact);
    assert RiskValue(a) <= RiskValue(b) by {
      assert a.probability * w <= b.probability * w;
    }
  }

  /** The indicator reported for one stored risk. */
  function IndicatorFor(risk: Risk): RiskIndicator
  {
    RiskIndicator(risk.name, RiskValue(risk), GetRiskThreshold(risk.level), DetermineRiskStatus(risk))
  }

  /** Every computed indicator's status is the three-way classification of
      its own value against its own threshold. */
  lemma IndicatorIsClassifiedByItsOwnFigures(risk: Risk)
    ensures var ind := IndicatorFor(risk);
            && (ind.status == RiskStatusCritical <==> ind.value >= 1.5 * ind.threshold)
            && (ind.status == RiskStatusNormal <==> ind.value < ind.threshold)
  {
  }

  /** The fixed answer `MonitorRisks` gives when no risk store is configured. */
  const DemoRiskMonitoring := RiskMonitoring([
    RiskIndicator("Technical Debt", 75.0, 80.0, RiskStatusWarning),
    RiskIndicator("Security Vulnerabilities", 25.0, 50.0, RiskStatusNormal)])

  /** The demo "Technical Debt" indicator is marked warning although its
      value is below its threshold, where the classification rule says
      normal. */
  lemma DemoTechnicalDebtDisagreesWithTheRule()
    ensures var ind := DemoRiskMonitoring.riskIndicators[0];
            ind.value < ind.threshold && ind.status != RiskStatusNormal
  {
  }

  /** The answer `MonitorRisks` gives for a given risk store. */
  function RiskMonitoringOf(riskRepo: Option<Result<seq<Risk>>>): (r: Result<RiskMonitoring>)
    ensures r.Err? <==> riskRepo.Some? && riskRepo.value.Err?
  {
    match riskRepo
    case None => Ok(DemoRiskMonitoring)
    case Some(Err(e)) => Err(Wrap("failed to find risks: ", e))
    case Some(Ok(risks)) => Ok(RiskMonitoring(seq(|risks|, i requires 0 <= i < |risks| => IndicatorFor(risks[i]))))
  }

  /** `MonitorRisks`: the demo answer without a risk store, otherwise one
      indicator per stored risk, in the store's order. The agreement is
      never looked up, so its ID is accepted and not used. */
  method MonitorRisks(riskRepo: Option<Result<seq<Risk>>>, agreementID: GovernanceAgreementID)
    returns (r: Result<RiskMonitoring>)
    ensures riskRepo.None? ==> r == Ok(DemoRiskMonitoring)
    ensures riskRepo.Some? && riskRepo.value.Err? ==> r == Err(Wrap("failed to find risks: ", riskRepo.value.error))
    ensures riskRepo.Some? && riskRepo.value.Ok? ==>
              var risks := riskRepo.value.value;
              r.Ok? && |r.value.riskIndicators| == |risks|
              && forall i :: 0 <= i < |risks| ==> r.value.riskIndicators[i] == IndicatorFor(risks[i])
    ensures r == RiskMonitoringOf(riskRepo)
  {
    if riskRepo.None? {
      return Ok(DemoRiskMonitoring);
    }
    if riskRepo.value.Err? {
      return Err(Wrap("failed to find risks: ", riskRepo.value.error));
    }
    var risks := riskRepo.value.value;
    var indicators := new RiskIndicator[|risks|];
    var i := 0;
    while i < |risks|
      invariant 0 <= i <= |risks|
      invariant forall k :: 0 <= k < i ==> indicators[k] == IndicatorFor(risks[k])
    {
      var risk := risks[i];
      indicators[i] := RiskIndicator(risk.name, risk.probability * ConvertImpactToNumeric(risk.impact),
                                     GetRiskThreshold(risk.level), DetermineRiskStatus(risk));
      i := i + 1;
    }
    assert indicators[..] == seq(|risks|, k requires 0 <= k < |risks| => IndicatorFor(risks[k]));
    r := Ok(RiskMonitoring(indicators[..]));
  }
}
