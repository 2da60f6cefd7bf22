/** The evaluation principle (domain/services.go, `EvaluationService`):
    the scoring engine that turns an application and its governance agreement
    into technical-health and business-value figures, a risk level and a
    list of recommendations, and the portfolio roll-up over it.

    Elapsed times are `now - t` in seconds; "within 90 days" is an elapsed
    time below 90 * `Day`, which agrees with the saturated nanosecond count
    of `time.Since` (`SinceKeepsComparisons`).  The average application
    age is a `Duration` in nanoseconds, summed with 64-bit wrap-around.  The float64 arithmetic of the source is exact
    here (`real`) where it matters and whole numbers elsewhere, since every
    figure the engine produces is a whole number. */
module EvaluationService {
  import opened Wrappers
  import opened DomainTypes
  import MemoryApplications
  import MemoryGovernance
  import MemoryPortfolios

  // ----------------------------------------------------------------- helpers

  /** `x` forced into `[lo, hi]`. */
  function Clamp(x: int, lo: int, hi: int): (r: int)
    requires lo <= hi
    ensures lo <= r <= hi
    ensures lo <= x <= hi ==> r == x
    ensures x < lo ==> r == lo
    ensures x > hi ==> r == hi
  {
    if x < lo then lo else if x > hi then hi else x
  }

  lemma ClampMonotone(x: int, y: int, lo: int, hi: int)
    requires lo <= hi && x <= y
    ensures Clamp(x, lo, hi) <= Clamp(y, lo, hi)
  {
  }

  /** Go's integer division, which truncates toward zero. */
  function GoDiv(a: int, b: int): (q: int)
    requires b > 0
    ensures a >= 0 ==> q == a / b
    ensures a < 0 ==> q == -((-a) / b)
  {
    if a >= 0 then a / b else -((-a) / b)
  }

  function Elapsed(t: Time, now: Time): Duration
  {
    now - t
  }

  /** Comparing the elapsed seconds with a threshold of at most about 292
      years gives the same answer as comparing Go's saturated
      `time.Since` nanoseconds with it. */
  lemma SinceKeepsComparisons(t: Time, now: Time, limit: Duration)
    requires 0 <= limit * NanosPerSecond <= MaxNanoseconds
    ensures Since(t, now) < limit * NanosPerSecond <==> Elapsed(t, now) < limit
    ensures Since(t, now) > limit * NanosPerSecond <==> Elapsed(t, now) > limit
  {
  }

  // -------------------------------------------------- version maturity

  /** How many times `c` occurs in `s`; `strings.Split(s, ".")` yields one
      more part than there are dots. */
  function CountChar(s: string, c: char): nat
  {
    if s == [] then 0 else CountChar(s[..|s| - 1], c) + (if s[|s| - 1] == c then 1 else 0)
  }

  /** ASCII lower-casing, as `strings.ToLower` does on ASCII text. */
  function ToLower(s: string): (r: string)
    ensures |r| == |s|
    ensures forall i :: 0 <= i < |s| ==> r[i] == (if 'A' <= s[i] <= 'Z' then (s[i] as int + 32) as char else s[i])
  {
    if s == [] then []
    else
      var c := s[0];
      [if 'A' <= c <= 'Z' then (c as int + 32) as char else c] + ToLower(s[1..])
  }

  /** `strings.Contains`. */
  predicate Contains(s: string, sub: string)
    decreases |s|
  {
    |sub| <= |s| && (s[..|sub|] == sub || (|s| > 0 && Contains(s[1..], sub)))
  }

  predicate HasPreReleaseMarker(version: string)
  {
    var v := ToLower(version);
    Contains(v, "dev") || Contains(v, "alpha") || Contains(v, "beta") || Contains(v, "rc")
  }

  /** `analyzeVersionMaturity`: a missing version costs a point, a version
      of three or more dot-separated parts earns one, anything else
      (pre-release markers included) is neutral. */
  function AnalyzeVersionMaturity(version: string): (r: int)
    ensures -1 <= r <= 1
    ensures r == -1 <==> version == ""
    ensures r == 1 <==> version != "" && CountChar(version, '.') + 1 >= 3
  {
    if version == "" then -1
    else if CountChar(version, '.') + 1 >= 3 then 1
    else if HasPreReleaseMarker(version) then 0
    else 0
  }

  // ------------------------------------------------ security provisions

  /** One point for a non-empty list of controls, a second beyond `bonusAbove`. */
  function Tier(n: nat, bonusAbove: nat): (r: int)
    ensures 0 <= r <= 2
    ensures r == 0 <==> n == 0
    ensures r == 2 <==> n > bonusAbove && n > 0
  {
    if n > 0 then (if n > bonusAbove then 2 else 1) else 0
  }

  /** `analyzeSecurityProvisions`: points for confidentiality and integrity
      controls (a bonus above two), authenticity controls, roles (a bonus
      above three) and an SLA response time, less a base expectation of two. */
  function AnalyzeSecurityProvisions(p: SecurityProvisions): (r: int)
    ensures -2 <= r <= 6
    ensures r == -2 <==> p.dataConfidentiality == [] && p.dataIntegrity == [] && p.applicationAuthenticity == []
                         && p.rolesAndPermissions == [] && p.applicationAvailability.responseTime <= 0
    ensures r == 6 <==> |p.dataConfidentiality| > 2 && |p.dataIntegrity| > 2 && |p.applicationAuthenticity| > 0
                        && |p.rolesAndPermissions| > 3 && p.applicationAvailability.responseTime > 0
  {
    Tier(|p.dataConfidentiality|, 2)
    + Tier(|p.dataIntegrity|, 2)
    + (if |p.applicationAuthenticity| > 0 then 1 else 0)
    + Tier(|p.rolesAndPermissions|, 3)
    + (if p.applicationAvailability.responseTime > 0 then 1 else 0)
    - 2
  }

  // ------------------------------------------- documentation completeness

  /** `analyzeDocumentationCompleteness`: a catalogue touched within 90 days
      earns two points, within a year one, never touched costs one; listed
      functionality earns one more, more than five entries another. */
  function AnalyzeDocumentationCompleteness(c: ApplicationCatalogue, now: Time): (r: int)
    ensures -1 <= r <= 4
    ensures c.lastUpdated == ZeroTime ==> r <= 1
    ensures r == 4 <==> c.lastUpdated != ZeroTime && Elapsed(c.lastUpdated, now) < 90 * Day && |c.functionality| > 5
    ensures r == -1 <==> c.lastUpdated == ZeroTime && c.functionality == []
  {
    var recency :=
      if c.lastUpdated != ZeroTime then
        (if Elapsed(c.lastUpdated, now) < 90 * Day then 2
         else if Elapsed(c.lastUpdated, now) < 365 * Day then 1
         else 0)
      else -1;
    recency + Tier(|c.functionality|, 5)
  }

  // ------------------------------------------------------- application age

  /** `analyzeApplicationAge`: no creation date is neutral; older than five
      years costs two, older than two years one; otherwise an update within
      90 days earns one. */
  function AnalyzeApplicationAge(createdAt: Time, updatedAt: Time, now: Time): (r: int)
    ensures -2 <= r <= 1
    ensures createdAt == ZeroTime ==> r == 0
    ensures r == -2 <==> createdAt != ZeroTime && Elapsed(createdAt, now) > 365 * 5 * Day
    ensures r == -1 <==> createdAt != ZeroTime && 365 * 2 * Day < Elapsed(createdAt, now) <= 365 * 5 * Day
    ensures r == 1 <==> createdAt != ZeroTime && Elapsed(createdAt, now) <= 365 * 2 * Day
                        && updatedAt != ZeroTime && Elapsed(updatedAt, now) < 90 * Day
  {
    if createdAt == ZeroTime then 0
    else if Elapsed(createdAt, now) > 365 * 5 * Day then -2
    else if Elapsed(createdAt, now) > 365 * 2 * Day then -1
    else if updatedAt != ZeroTime then
      (if Elapsed(updatedAt, now) < 90 * Day then 1
       else if Elapsed(updatedAt, now) < 180 * Day then 0
       else 0)
    else 0
  }

  // ---------------------------------------------------------- status

  /** `analyzeApplicationStatus`: active +1, deprecated -1, retired -2,
      planned and any other status 0. */
  function AnalyzeApplicationStatus(status: ApplicationStatus): (r: int)
    ensures -2 <= r <= 1
    ensures r == 1 <==> status == StatusActive
    ensures r == -1 <==> status == StatusDeprecated
    ensures r == -2 <==> status == StatusRetired
  {
    match status
    case StatusActive => 1
    case StatusDeprecated => -1
    case StatusRetired => -2
    case StatusPlanned => 0
    case StatusUnlisted(_) => 0
  }

  // ------------------------------------------------------ score variance

  /** `adjustScoreWithVariance`, in exact arithmetic: add a tenth of the
      score, capped at one half either way, clamp to [1, 5] and round half
      up.  The two factors are accepted and never read. */
  function AdjustScoreWithVariance(baseScore: int, minFactor: real, maxFactor: real): int
  {
    var b := baseScore as real;
    var v0 := b * 0.1;
    var v1 := if v0 > 0.5 then 0.5 else v0;
    var variance := if v1 < -0.5 then -0.5 else v1;
    var a0 := b + variance;
    var a1 := if a0 < 1.0 then 1.0 else a0;
    var adjusted := if a1 > 5.0 then 5.0 else a1;
    (adjusted + 0.5).Floor
  }

  /** The "variance" never changes the score: the result is the base score
      clamped to [1, 5], whatever the factors. */
  lemma AdjustScoreWithVarianceIsClamp(baseScore: int, minFactor: real, maxFactor: real)
    ensures AdjustScoreWithVariance(baseScore, minFactor, maxFactor) == Clamp(baseScore, 1, 5)
  {
    var b := baseScore as real;
    if baseScore <= 0 {
      assert b * 0.1 <= 0.0;
    } else if baseScore >= 5 {
      assert b * 0.1 >= 0.5;
    } else {
      var a := b + b * 0.1;
      assert b < a + 0.5 < b + 1.0;
      assert (a + 0.5).Floor == baseScore;
    }
  }

  // ---------------------------------------------------- technical health

  /** The overall health score of `assessTechnicalHealth`: 3 plus the five
      partial scores, clamped to [1, 5]. */
  function HealthScore(app: Application, now: Time): (r: int)
    ensures 1 <= r <= 5
  {
    Clamp(3 + AnalyzeVersionMaturity(app.version)
            + AnalyzeSecurityProvisions(app.securityProvisions)
            + AnalyzeDocumentationCompleteness(app.catalogue, now)
            + AnalyzeApplicationAge(app.createdAt, app.updatedAt, now)
            + AnalyzeApplicationStatus(app.status), 1, 5)
  }

  /** `assessTechnicalHealth`. */
  function AssessTechnicalHealth(app: Application, now: Time): (h: TechnicalHealth)
    ensures 1 <= h.codeQuality <= 5 && 1 <= h.documentation <= 5
    ensures 1 <= h.securityScore <= 5 && 1 <= h.performanceScore <= 5
    ensures 10 <= h.testCoverage <= 130
    ensures h.codeQuality == h.documentation == HealthScore(app, now)
    ensures h.securityScore == Clamp(HealthScore(app, now) + AnalyzeSecurityProvisions(app.securityProvisions), 1, 5)
    ensures h.performanceScore ==
              Clamp(HealthScore(app, now) + AnalyzeApplicationAge(app.createdAt, app.updatedAt, now), 1, 5)
  {
    var score := HealthScore(app, now);
    var sec := AnalyzeSecurityProvisions(app.securityProvisions);
    var age := AnalyzeApplicationAge(app.createdAt, app.updatedAt, now);
    AdjustScoreWithVarianceIsClamp(score, 0.8, 1.2);
    AdjustScoreWithVarianceIsClamp(score, 0.9, 1.1);
    AdjustScoreWithVarianceIsClamp(score + sec, 0.7, 1.3);
    AdjustScoreWithVarianceIsClamp(score + age, 0.8, 1.2);
    TechnicalHealth(
      AdjustScoreWithVariance(score, 0.8, 1.2),
      AdjustScoreWithVariance(score, 0.9, 1.1),
      score * 20 + sec * 5,
      AdjustScoreWithVariance(score + sec, 0.7, 1.3),
      AdjustScoreWithVariance(score + age, 0.8, 1.2))
  }

  /** Of two otherwise identical applications, the retired one never has
      better code-quality, security or performance scores than the active one. */
  lemma RetirementNeverImprovesHealth(app: Application, now: Time)
    ensures var retired := AssessTechnicalHealth(app.(status := StatusRetired), now);
            var active := AssessTechnicalHealth(app.(status := StatusActive), now);
            retired.codeQuality <= active.codeQuality
            && retired.securityScore <= active.securityScore
            && retired.performanceScore <= active.performanceScore
  {
    var r, a := app.(status := StatusRetired), app.(status := StatusActive);
    var base := 3 + AnalyzeVersionMaturity(app.version)
                  + AnalyzeSecurityProvisions(app.securityProvisions)
                  + AnalyzeDocumentationCompleteness(app.catalogue, now)
                  + AnalyzeApplicationAge(app.createdAt, app.updatedAt, now);
    ClampMonotone(base - 2, base + 1, 1, 5);
    var sr, sa := HealthScore(r, now), HealthScore(a, now);
    assert sr <= sa;
    ClampMonotone(sr + AnalyzeSecurityProvisions(app.securityProvisions),
                  sa + AnalyzeSecurityProvisions(app.securityProvisions), 1, 5);
    ClampMonotone(sr + AnalyzeApplicationAge(app.createdAt, app.updatedAt, now),
                  sa + AnalyzeApplicationAge(app.createdAt, app.updatedAt, now), 1, 5);
  }

  // ------------------------------------------------------ business value

  /** `calculateBusinessAlignment`. */
  function BusinessAlignment(app: Application, agreement: Option<GovernanceAgreement>, now: Time): (r: int)
    ensures 0 <= r <= 100
  {
    var governance :=
      if agreement.Some? then
        20 + (if |agreement.value.direct.strategicDirection.objectives| > 0 then 5 else 0)
           + (if agreement.value.conformance.complianceMonitoring.monitoringFrequency != "" then 5 else 0)
      else 0;
    var status :=
      match app.status
      case StatusActive => 5
      case StatusPlanned => 2
      case StatusDeprecated => -10
      case StatusRetired => -20
      case StatusUnlisted(_) => 0;
    var recent := if app.updatedAt != ZeroTime && Elapsed(app.updatedAt, now) < 90 * Day then 3 else 0;
    Clamp(70 + governance + status + recent, 0, 100)
  }

  /** `calculateCostEfficiency`. */
  function CostEfficiency(app: Application, agreement: Option<GovernanceAgreement>, now: Time): (r: int)
    ensures 0 <= r <= 100
  {
    var governance :=
      if agreement.Some? then
        15 + (if |agreement.value.direct.resourceAllocation.budgetAllocations| > 0 then 10 else 0)
      else 0;
    var status :=
      match app.status
      case StatusActive => 10
      case StatusDeprecated => -15
      case StatusRetired => -25
      case StatusPlanned => 5
      case StatusUnlisted(_) => 0;
    var age :=
      if app.createdAt != ZeroTime then
        (if Elapsed(app.createdAt, now) > 5 * 365 * Day then -10
         else if Elapsed(app.createdAt, now) < 365 * Day then 5
         else 0)
      else 0;
    var p := app.securityProvisions;
    var security := if |p.dataConfidentiality| + |p.dataIntegrity| + |p.rolesAndPermissions| > 3 then 5 else 0;
    Clamp(60 + governance + status + age + security, 0, 100)
  }

  /** `calculateUserSatisfaction`. */
  function UserSatisfaction(app: Application, agreement: Option<GovernanceAgreement>, now: Time): (r: int)
    ensures 0 <= r <= 100
  {
    var governance :=
      if agreement.Some? then
        15 + (if |agreement.value.evaluate.performanceMetrics| > 0 then 5 else 0)
      else 0;
    var status :=
      match app.status
      case StatusActive => 10
      case StatusDeprecated => -15
      case StatusRetired => -30
      case StatusPlanned => 5
      case StatusUnlisted(_) => 0;
    var recent := if app.updatedAt != ZeroTime && Elapsed(app.updatedAt, now) < 60 * Day then 8 else 0;
    var roles := if |app.securityProvisions.rolesAndPermissions| > 0 then 3 else 0;
    Clamp(65 + governance + status + recent + roles, 0, 100)
  }

  /** `assessBusinessValue`, without the usage metrics. */
  function AssessBusinessValue(app: Application, agreement: Option<GovernanceAgreement>, now: Time)
    : (v: BusinessValueAssessment)
    ensures 0 <= v.businessAlignment <= 100 && 0 <= v.costEfficiency <= 100 && 0 <= v.userSatisfaction <= 100
  {
    BusinessValueAssessment(BusinessAlignment(app, agreement, now),
                            CostEfficiency(app, agreement, now),
                            UserSatisfaction(app, agreement, now))
  }

  /** Having a governance agreement never lowers any business-value figure,
      whatever the agreement holds. */
  lemma GovernanceNeverLowersBusinessValue(app: Application, g: GovernanceAgreement, now: Time)
    ensures var with := AssessBusinessValue(app, Some(g), now);
            var without := AssessBusinessValue(app, None, now);
            with.businessAlignment >= without.businessAlignment
            && with.costEfficiency >= without.costEfficiency
            && with.userSatisfaction >= without.userSatisfaction
  {
  }

  /** A governed, active application whose agreement carries budget
      allocations can never be rated below 70 on cost, so cost alone can
      never raise its risk to High or Critical. */
  lemma GovernedActiveBudgetedIsCostEfficient(app: Application, g: GovernanceAgreement, now: Time)
    requires app.status == StatusActive && |g.direct.resourceAllocation.budgetAllocations| > 0
    ensures CostEfficiency(app, Some(g), now) >= 85
  {
  }

  // ---------------------------------------------------------- risk level

  /** `determineRiskLevel`: the mean of code quality, security and
      performance, taken with Go's integer division (the three scores are
      `int`s), and cost efficiency. */
  function DetermineRiskLevel(h: TechnicalHealth, v: BusinessValueAssessment): (r: RiskLevel)
    ensures !r.RiskLevelUnlisted?
    ensures v.costEfficiency < 50 ==> r == RiskCritical
    ensures v.costEfficiency < 70 ==> r == RiskCritical || r == RiskHigh
    ensures r == RiskLow <==> h.codeQuality + h.securityScore + h.performanceScore >= 15 && v.costEfficiency >= 70
    ensures r == RiskMedium <==>
              12 <= h.codeQuality + h.securityScore + h.performanceScore <= 14 && v.costEfficiency >= 70
    ensures r == RiskCritical <==> h.codeQuality + h.securityScore + h.performanceScore <= 8 || v.costEfficiency < 50
  {
    var avg := GoDiv(h.codeQuality + h.securityScore + h.performanceScore, 3);
    if avg <= 2 || v.costEfficiency < 50 then RiskCritical
    else if avg <= 3 || v.costEfficiency < 70 then RiskHigh
    else if avg <= 4 then RiskMedium
    else RiskLow
  }

  /** With scores on the 1 to 5 scale, low risk needs all three scores at
      the top of the scale: the truncated mean exceeds 4 only at 15. */
  lemma LowRiskNeedsPerfectScores(h: TechnicalHealth, v: BusinessValueAssessment)
    requires h.codeQuality <= 5 && h.securityScore <= 5 && h.performanceScore <= 5
    requires DetermineRiskLevel(h, v) == RiskLow
    ensures h.codeQuality == 5 && h.securityScore == 5 && h.performanceScore == 5 && v.costEfficiency >= 70
  {
  }

  // ---------------------------------------------------- recommendations

  const SecurityRecommendation := Recommendation(
    "sec-001", RecModernize, "Improve security measures and implement additional security controls",
    PriorityHigh, 80, "Reduce security risks and ensure compliance")
  const QualityRecommendation := Recommendation(
    "tech-001", RecEnhance, "Refactor code to improve quality and maintainability",
    PriorityMedium, 120, "Reduce technical debt and improve development velocity")
  const CostRecommendation := Recommendation(
    "cost-001", RecReplace, "Evaluate more cost-effective alternatives",
    PriorityMedium, 40, "Reduce operational costs")
  const RetirementRecommendation := Recommendation(
    "risk-001", RecRetire, "Consider retiring or replacing this high-risk application",
    PriorityCritical, 160, "Eliminate critical business and technical risks")

  /** The position a recommendation of each type takes in the generated list. */
  function Rank(rec: Recommendation): nat
  {
    match rec.recType
    case RecModernize => 0
    case RecEnhance => 1
    case RecReplace => 2
    case RecRetire => 3
    case RecMaintain => 4
  }

  /** `generateRecommendations`: one fixed recommendation per triggered
      rule, in the order the rules are checked. */
  function GenerateRecommendations(h: TechnicalHealth, v: BusinessValueAssessment, risk: RiskLevel)
    : (recs: seq<Recommendation>)
  {
    (if h.securityScore < 3 then [SecurityRecommendation] else [])
    + (if h.codeQuality < 3 then [QualityRecommendation] else [])
    + (if v.costEfficiency < 70 then [CostRecommendation] else [])
    + (if risk == RiskCritical then [RetirementRecommendation] else [])
  }

  /** Each recommendation is present exactly when its rule fires, nothing
      else is ever recommended, and the list follows the order of the rules. */
  lemma RecommendationRules(h: TechnicalHealth, v: BusinessValueAssessment, risk: RiskLevel)
    ensures var recs := GenerateRecommendations(h, v, risk);
            && |recs| <= 4
            && (SecurityRecommendation in recs <==> h.securityScore < 3)
            && (QualityRecommendation in recs <==> h.codeQuality < 3)
            && (CostRecommendation in recs <==> v.costEfficiency < 70)
            && (RetirementRecommendation in recs <==> risk == RiskCritical)
            && (forall i :: 0 <= i < |recs| ==>
                  recs[i] in {SecurityRecommendation, QualityRecommendation, CostRecommendation, RetirementRecommendation})
            && (forall i, j :: 0 <= i < j < |recs| ==> Rank(recs[i]) < Rank(recs[j]))
  {
  }

  /** A Critical application always receives the retirement recommendation,
      and a cost below 70 the cost review. */
  lemma CriticalRiskIsAlwaysFlagged(h: TechnicalHealth, v: BusinessValueAssessment)
    ensures DetermineRiskLevel(h, v) == RiskCritical ==>
              RetirementRecommendation in GenerateRecommendations(h, v, DetermineRiskLevel(h, v))
    ensures v.costEfficiency < 70 ==>
              CostRecommendation in GenerateRecommendations(h, v, DetermineRiskLevel(h, v))
  {
    RecommendationRules(h, v, DetermineRiskLevel(h, v));
  }

  // ---------------------------------------------------------- assessments

  /** The assessment `EvaluateApplication` builds once the application and
      its agreement are found. */
  function Assess(app: Application, agreement: Option<GovernanceAgreement>, now: Time): ApplicationAssessment
  {
    var h := AssessTechnicalHealth(app, now);
    var v := AssessBusinessValue(app, agreement, now);
    var risk := DetermineRiskLevel(h, v);
    ApplicationAssessment(app.id, h, v, risk, GenerateRecommendations(h, v, risk))
  }

  /** What `EvaluateApplication` returns for the stored maps: the
      application and its agreement must both be found, and then the
      agreement takes part in the business-value figures. */
  function EvaluationOf(applications: map<ApplicationID, Application>,
                        agreements: map<GovernanceAgreementID, GovernanceAgreement>,
                        byApplication: map<ApplicationID, GovernanceAgreementID>,
                        appID: ApplicationID, now: Time): (r: Result<ApplicationAssessment>)
    ensures r.Ok? <==> appID in applications && MemoryGovernance.ResolveByApplication(agreements, byApplication, appID).Ok?
    ensures r.Ok? ==> r.value.applicationID == appID && !r.value.riskLevel.RiskLevelUnlisted?
  {
    if appID !in applications then Err(Wrap("failed to find application: ", NotFound("application not found")))
    else
      var g := MemoryGovernance.ResolveByApplication(agreements, byApplication, appID);
      if g.Err? then Err(Wrap("failed to find governance agreement: ", g.error))
      else Ok(Assess(applications[appID], Some(g.value), now).(applicationID := appID))
  }

  /** An abandoned application (retired, no version, no security controls,
      an empty catalogue never updated, no creation date) is rated Critical
      and told to retire, even under a governance agreement. */
  lemma AbandonedApplicationIsCritical(app: Application, g: GovernanceAgreement, now: Time)
    requires app.status == StatusRetired && app.version == ""
    requires app.securityProvisions == NoSecurityProvisions
    requires app.catalogue == ApplicationCatalogue([], ZeroTime) && app.createdAt == ZeroTime
    ensures Assess(app, Some(g), now).riskLevel == RiskCritical
    ensures RetirementRecommendation in Assess(app, Some(g), now).recommendations
  {
    var h := AssessTechnicalHealth(app, now);
    var v := AssessBusinessValue(app, Some(g), now);
    RecommendationRules(h, v, DetermineRiskLevel(h, v));
    assert AnalyzeSecurityProvisions(app.securityProvisions) == -2;
    assert HealthScore(app, now) == 1;
  }

  /** `EvaluateApplication`: look up the application, then its agreement,
      and assess. The evaluator's name is accepted and not used. */
  method EvaluateApplication(appRepo: MemoryApplications.ApplicationRepository,
                             agreementRepo: MemoryGovernance.GovernanceRepository,
                             appID: ApplicationID, evaluator: string, now: Time)
    returns (r: Result<ApplicationAssessment>)
    requires appRepo.Valid()
    ensures r == EvaluationOf(appRepo.applications, agreementRepo.agreements, agreementRepo.byApplication, appID, now)
  {
    var app := appRepo.FindByID(appID);
    if app.Err? {
      return Err(Wrap("failed to find application: ", app.error));
    }
    var g := agreementRepo.FindByApplicationID(appID);
    if g.Err? {
      return Err(Wrap("failed to find governance agreement: ", g.error));
    }
    var h := AssessTechnicalHealth(app.value, now);
    // assessBusinessValue looks the agreement up a second time and finds the same one
    var again := agreementRepo.FindByApplicationID(app.value.id);
    var agreement := if again.Ok? then Some(again.value) else None;
    var v := AssessBusinessValue(app.value, agreement, now);
    var risk := DetermineRiskLevel(h, v);
    var recs := GenerateRecommendations(h, v, risk);
    r := Ok(ApplicationAssessment(appID, h, v, risk, recs));
  }

  // ------------------------------------------------------ portfolio roll-up

  /** The counters `EvaluatePortfolio` keeps while it walks the portfolio's
      applications; `evaluated` counts the applications whose evaluation
      succeeded. */
  datatype Tally = Tally(active: int, deprecated: int, evaluated: int, distribution: map<RiskLevel, int>)

  function Count(m: map<RiskLevel, int>, k: RiskLevel): int
  {
    if k in m then m[k] else 0
  }

  /** The four risk levels' counts together. */
  function DistributionTotal(m: map<RiskLevel, int>): int
  {
    Count(m, RiskLow) + Count(m, RiskMedium) + Count(m, RiskHigh) + Count(m, RiskCritical)
  }

  /** The risk level each application's evaluation yields, or None when
      its evaluation fails. */
  function RiskLevels(applications: map<ApplicationID, Application>,
                      agreements: map<GovernanceAgreementID, GovernanceAgreement>,
                      byApplication: map<ApplicationID, GovernanceAgreementID>,
                      now: Time): ApplicationID -> Option<RiskLevel>
  {
    id =>
      var e := EvaluationOf(applications, agreements, byApplication, id, now);
      if e.Ok? then Some(e.value.riskLevel) else None
  }

  /** The counters after one more application whose evaluation yielded
      `level` (None when it failed and is skipped). */
  function TallyNext(t: Tally, app: Application, level: Option<RiskLevel>): Tally
  {
    match level
    case None => t
    case Some(l) =>
      Tally(t.active + (if app.status == StatusActive then 1 else 0),
            t.deprecated + (if app.status == StatusDeprecated then 1 else 0),
            t.evaluated + 1,
            t.distribution[l := Count(t.distribution, l) + 1])
  }

  /** The counters after walking `apps`, given the outcome of evaluating
      each; statuses come from the portfolio's own copies of the
      applications. */
  function TallyOf(apps: seq<Application>, levels: ApplicationID -> Option<RiskLevel>): Tally
  {
    if apps == [] then Tally(0, 0, 0, map[])
    else TallyNext(TallyOf(apps[..|apps| - 1], levels), apps[|apps| - 1], levels(apps[|apps| - 1].id))
  }

  /** One more application extends the tally by that application's outcome. */
  lemma TallyStep(prefix: seq<Application>, app: Application, levels: ApplicationID -> Option<RiskLevel>)
    ensures TallyOf(prefix + [app], levels) == TallyNext(TallyOf(prefix, levels), app, levels(app.id))
  {
    assert (prefix + [app])[..|prefix|] == prefix;
  }

  /** The loop body of `EvaluatePortfolio` for one application whose
      evaluation yielded `level`: count its status and its risk level. */
  method CountOutcome(app: Application, level: Option<RiskLevel>, ghost t: Tally,
                      active: int, deprecated: int, distribution: map<RiskLevel, int>)
    returns (active': int, deprecated': int, distribution': map<RiskLevel, int>)
    requires t.active == active && t.deprecated == deprecated && t.distribution == distribution
    ensures TallyNext(t, app, level) ==
              Tally(active', deprecated', t.evaluated + (if level.Some? then 1 else 0), distribution')
  {
    active', deprecated', distribution' := active, deprecated, distribution;
    if level.Some? {
      match app.status {
        case StatusActive => active' := active + 1;
        case StatusDeprecated => deprecated' := deprecated + 1;
        case _ =>
      }
      var l := level.value;
      distribution' := distribution[l := (if l in distribution then distribution[l] else 0) + 1];
    }
  }

  /** Evaluation only ever yields one of the four risk levels. */
  lemma RiskLevelsAreListed(applications: map<ApplicationID, Application>,
                            agreements: map<GovernanceAgreementID, GovernanceAgreement>,
                            byApplication: map<ApplicationID, GovernanceAgreementID>,
                            now: Time, id: ApplicationID)
    ensures var l := RiskLevels(applications, agreements, byApplication, now)(id);
            l.Some? ==> !l.value.RiskLevelUnlisted?
  {
  }

  /** No evaluation yields a risk level outside the four listed ones. */
  lemma RiskLevelsAreAllListed(applications: map<ApplicationID, Application>,
                               agreements: map<GovernanceAgreementID, GovernanceAgreement>,
                               byApplication: map<ApplicationID, GovernanceAgreementID>,
                               now: Time)
    ensures var levels := RiskLevels(applications, agreements, byApplication, now);
            forall id :: levels(id).Some? ==> !levels(id).value.RiskLevelUnlisted?
  {
    forall id {
      RiskLevelsAreListed(applications, agreements, byApplication, now, id);
    }
  }

  /** The roll-up's counts are consistent: active and deprecated together
      never exceed the evaluated applications, which never exceed the
      portfolio, and when evaluation yields only the four listed levels the
      risk histogram has only those as keys and adds up to the evaluated
      applications. */
  lemma {:induction false} TallyIsConsistent(apps: seq<Application>, levels: ApplicationID -> Option<RiskLevel>)
    requires forall id :: levels(id).Some? ==> !levels(id).value.RiskLevelUnlisted?
    ensures var t := TallyOf(apps, levels);
            && 0 <= t.active && 0 <= t.deprecated
            && t.active + t.deprecated <= t.evaluated <= |apps|
            && (forall k :: k in t.distribution ==> !k.RiskLevelUnlisted? && t.distribution[k] > 0)
            && DistributionTotal(t.distribution) == t.evaluated
  {
    if apps != [] {
      TallyIsConsistent(apps[..|apps| - 1], levels);
    }
  }

  /** A portfolio none of whose applications can be evaluated reports zero
      active, zero deprecated and an empty risk histogram, whatever their
      statuses. */
  lemma {:induction false} UnevaluatedPortfolioCountsNothing(apps: seq<Application>,
                                                             levels: ApplicationID -> Option<RiskLevel>)
    requires forall i :: 0 <= i < |apps| ==> levels(apps[i].id).None?
    ensures TallyOf(apps, levels) == Tally(0, 0, 0, map[])
  {
    if apps != [] {
      UnevaluatedPortfolioCountsNothing(apps[..|apps| - 1], levels);
    }
  }

  /** An application with no entry in the agreement index cannot be evaluated. */
  lemma UngovernedApplicationIsSkipped(applications: map<ApplicationID, Application>,
                                       agreements: map<GovernanceAgreementID, GovernanceAgreement>,
                                       byApplication: map<ApplicationID, GovernanceAgreementID>,
                                       now: Time, id: ApplicationID)
    requires id !in byApplication
    ensures RiskLevels(applications, agreements, byApplication, now)(id) == None
  {
  }

  /** The exact total of the applications' `time.Since(createdAt)` ages,
      as an unbounded integer. */
  function ExactAgeTotal(apps: seq<Application>, now: Time): int
  {
    if apps == [] then 0 else ExactAgeTotal(apps[..|apps| - 1], now) + Since(apps[|apps| - 1].createdAt, now)
  }

  /** `totalAge` after the loop of `calculateAverageApplicationAge`: the
      ages added one at a time in 64-bit `Duration` arithmetic. */
  function SumAges(apps: seq<Application>, now: Time): (s: Nanoseconds)
    ensures InInt64(s)
  {
    if apps == [] then 0 else AddNanoseconds(SumAges(apps[..|apps| - 1], now), Since(apps[|apps| - 1].createdAt, now))
  }

  /** `calculateAverageApplicationAge`'s result: zero for no applications,
      otherwise the 64-bit total divided by their number, truncated. */
  function AverageAge(apps: seq<Application>, now: Time): Nanoseconds
  {
    if |apps| == 0 then 0 else GoDiv(SumAges(apps, now), |apps|)
  }

  /** The 64-bit total agrees with the exact total modulo 2^64. */
  lemma {:induction false} SumAgesIsExactModulo64Bits(apps: seq<Application>, now: Time)
    ensures (SumAges(apps, now) - ExactAgeTotal(apps, now)) % TwoTo64 == 0
  {
    if apps != [] {
      var init := apps[..|apps| - 1];
      SumAgesIsExactModulo64Bits(init, now);
      var x := SumAges(init, now) - ExactAgeTotal(init, now);
      var c := SumAges(apps, now) - ExactAgeTotal(apps, now) - x;
      assert c == 0 || c == TwoTo64 || c == -TwoTo64;
      assert x == TwoTo64 * (x / TwoTo64);
      assert x + c == TwoTo64 * (x / TwoTo64 + c / TwoTo64);
    }
  }

  lemma {:induction false} SumAgesAtLeast(apps: seq<Application>, now: Time, lo: int)
    requires forall i :: 0 <= i < |apps| ==> lo <= Since(apps[i].createdAt, now)
    ensures |apps| * lo <= ExactAgeTotal(apps, now)
  {
    if apps != [] {
      SumAgesAtLeast(apps[..|apps| - 1], now, lo);
    }
  }

  lemma {:induction false} SumAgesAtMost(apps: seq<Application>, now: Time, hi: int)
    requires forall i :: 0 <= i < |apps| ==> Since(apps[i].createdAt, now) <= hi
    ensures ExactAgeTotal(apps, now) <= |apps| * hi
  {
    if apps != [] {
      SumAgesAtMost(apps[..|apps| - 1], now, hi);
    }
  }

  /** When no age is negative and their exact total fits in a `Duration`,
      no addition of the loop wraps and the 64-bit total is exact. */
  lemma {:induction false} SumAgesIsExactWithoutOverflow(apps: seq<Application>, now: Time)
    requires forall i :: 0 <= i < |apps| ==> 0 <= Since(apps[i].createdAt, now)
    requires ExactAgeTotal(apps, now) <= MaxNanoseconds
    ensures SumAges(apps, now) == ExactAgeTotal(apps, now)
  {
    if apps != [] {
      var init := apps[..|apps| - 1];
      SumAgesAtLeast(init, now, 0);
      SumAgesIsExactWithoutOverflow(init, now);
    }
  }

  /** The average lies between the youngest and the oldest age, when no
      application was created in the future and the members' ages, all at
      most `hi`, cannot overflow the 64-bit total. */
  lemma AverageAgeBetweenExtremes(apps: seq<Application>, now: Time, lo: int, hi: int)
    requires |apps| > 0 && 0 <= lo
    requires forall i :: 0 <= i < |apps| ==> lo <= Since(apps[i].createdAt, now) <= hi
    requires |apps| * hi <= MaxNanoseconds
    ensures lo <= AverageAge(apps, now) <= hi
  {
    var n, s := |apps|, ExactAgeTotal(apps, now);
    SumAgesAtLeast(apps, now, lo);
    SumAgesAtMost(apps, now, hi);
    SumAgesIsExactWithoutOverflow(apps, now);
    assert n * lo <= s <= n * hi;
    DivBetween(s, n, lo, hi);
  }

  lemma DivBetween(s: int, n: int, lo: int, hi: int)
    requires n > 0 && 0 <= lo && n * lo <= s <= n * hi
    ensures lo <= s / n <= hi
  {
    var q, rem := s / n, s % n;
    assert s == n * q + rem && 0 <= rem < n;
    // n * (q + 1 - lo) exceeds s - n * lo >= 0, so q + 1 - lo is positive
    assert n * (q + 1 - lo) == (n * q + n) - n * lo;
    assert n * (q + 1 - lo) > 0;
    // n * (hi - q) = n * hi - n * q >= s - n * q >= 0, so hi - q is not negative
    assert n * (hi - q) == n * hi - n * q;
    assert n * (hi - q) >= 0;
  }

  /** An application with the zero `CreatedAt`, such as the ID-only entry
      the portfolio store's `AddApplication` appends, is about 292 years old
      by `time.Since`; beside any member of positive age the 64-bit total
      wraps and the average comes out negative. */
  lemma ZeroTimeMemberMakesAverageNegative(a: Application, b: Application, now: Time)
    requires a.createdAt == ZeroTime && now * NanosPerSecond > MaxNanoseconds
    requires 0 < Since(b.createdAt, now)
    ensures Since(a.createdAt, now) == MaxNanoseconds
    ensures AverageAge([a, b], now) < 0
  {
    var sb := Since(b.createdAt, now);
    assert [a, b][..1] == [a];
    assert [a][..0] == [];
    assert SumAges([a], now) == MaxNanoseconds;
    // the sum passes the greatest Duration and wraps below zero
    var total := SumAges([a, b], now);
    assert total == MaxNanoseconds + sb - TwoTo64;
    assert total <= -2;
    assert GoDiv(total, 2) == -((-total) / 2);
  }

  /** `calculateAverageApplicationAge`. */
  method CalculateAverageApplicationAge(apps: seq<Application>, now: Time) returns (avg: Nanoseconds)
    ensures avg == AverageAge(apps, now)
    ensures InInt64(avg)
  {
    if |apps| == 0 {
      return 0;
    }
    var total := 0;
    var i := 0;
    while i < |apps|
      invariant 0 <= i <= |apps|
      invariant total == SumAges(apps[..i], now)
    {
      assert apps[..i + 1][..i] == apps[..i];
      total := AddNanoseconds(total, Since(apps[i].createdAt, now));
      i := i + 1;
    }
    assert apps[..i] == apps;
    avg := GoDiv(total, |apps|);
  }

  /** The loop of `EvaluatePortfolio`: evaluate each application in turn
      and count the active and deprecated ones and the risk levels among
      those whose evaluation succeeded; `evaluated` is the number of
      assessments the loop collects. */
  method TallyApplications(appRepo: MemoryApplications.ApplicationRepository,
                           agreementRepo: MemoryGovernance.GovernanceRepository,
                           apps: seq<Application>, now: Time)
    returns (active: int, deprecated: int, distribution: map<RiskLevel, int>, evaluated: int)
    requires appRepo.Valid()
    ensures Tally(active, deprecated, evaluated, distribution)
            == TallyOf(apps, RiskLevels(appRepo.applications, agreementRepo.agreements,
                                        agreementRepo.byApplication, now))
  {
    ghost var levels := RiskLevels(appRepo.applications, agreementRepo.agreements,
                                   agreementRepo.byApplication, now);
    active, deprecated, evaluated := 0, 0, 0;
    distribution := map[];
    var i := 0;
    while i < |apps|
      invariant 0 <= i <= |apps|
      invariant Tally(active, deprecated, evaluated, distribution) == TallyOf(apps[..i], levels)
    {
      var app := apps[i];
      assert apps[..i + 1] == apps[..i] + [app];
      TallyStep(apps[..i], app, levels);
      var assessment := EvaluateApplication(appRepo, agreementRepo, app.id, "system", now);
      var level := if assessment.Ok? then Some(assessment.value.riskLevel) else None;
      assert level == levels(app.id);
      active, deprecated, distribution :=
        CountOutcome(app, level, Tally(active, deprecated, evaluated, distribution), active, deprecated, distribution);
      evaluated := evaluated + (if level.Some? then 1 else 0);
      i := i + 1;
    }
    assert apps[..i] == apps;
  }

  /** `EvaluatePortfolio`: evaluate every application of the stored
      portfolio, skipping failures, and roll the results up. Redundancy and
      total cost are always reported as zero. */
  method EvaluatePortfolio(portfolioRepo: MemoryPortfolios.PortfolioRepository,
                           appRepo: MemoryApplications.ApplicationRepository,
                           agreementRepo: MemoryGovernance.GovernanceRepository,
                           portfolioID: PortfolioID, now: Time)
    returns (r: Result<PortfolioHealthAssessment>)
    requires appRepo.Valid()
    ensures r.Ok? <==> portfolioID in portfolioRepo.portfolios
    ensures r.Err? ==> r == Err(NotFound("failed to find portfolio: portfolio not found"))
    ensures r.Ok? ==>
              var apps := portfolioRepo.portfolios[portfolioID].applications;
              var t := TallyOf(apps, RiskLevels(appRepo.applications, agreementRepo.agreements,
                                                agreementRepo.byApplication, now));
              r.value == PortfolioHealthAssessment(|apps|, t.active, t.deprecated, 0, 0,
                                                   AverageAge(apps, now), t.distribution)
    ensures r.Ok? ==>
              0 <= r.value.activeApplications + r.value.deprecatedApplications
                <= DistributionTotal(r.value.riskDistribution) <= r.value.totalApplications
  {
    var p := portfolioRepo.FindByID(portfolioID);
    if p.Err? {
      return Err(Wrap("failed to find portfolio: ", p.error));
    }
    var apps := p.value.applications;
    var active, deprecated, distribution, evaluated := TallyApplications(appRepo, agreementRepo, apps, now);
    var avg := CalculateAverageApplicationAge(apps, now);
    RiskLevelsAreAllListed(appRepo.applications, agreementRepo.agreements, agreementRepo.byApplication, now);
    TallyIsConsistent(apps, RiskLevels(appRepo.applications, agreementRepo.agreements,
                                       agreementRepo.byApplication, now));
    r := Ok(PortfolioHealthAssessment(|apps|, active, deprecated, 0, 0, avg, distribution));
  }
}
