/** The SLA risk endpoint: a heuristic score from how far a ticket has progressed towards
    its priority's SLA allowance, bumped for some categories, mapped to a tier by strict
    thresholds, together with the projected breach time. Times are real hours; the random
    perturbation of the score is a parameter within the range it is drawn from. */
module SlaRisk {
  import opened Common
  import TicketSchema

  /** The SLA allowance per priority value, in hours. */
  const SlaDefinitions: map<string, int> := map["Critical" := 4, "High" := 8, "Medium" := 24, "Low" := 48]

  /** The allowance for a priority value, 48 hours for a value not in the table. */
  function SlaHours(priority: string): (h: int)
    ensures h > 0
    ensures priority in SlaDefinitions ==> h == SlaDefinitions[priority]
    ensures priority !in SlaDefinitions ==> h == 48
  {
    if priority in SlaDefinitions then SlaDefinitions[priority] else 48
  }

  /** The request names a priority of the enumeration, so the default never applies. */
  lemma EveryPriorityHasAllowance(p: TicketSchema.Priority)
    ensures TicketSchema.PriorityValue(p) in SlaDefinitions
    ensures SlaHours(TicketSchema.PriorityValue(p)) == (match p
                                                        case Critical => 4
                                                        case High => 8
                                                        case Medium => 24
                                                        case Low => 48)
  {
  }

  function MinReal(a: real, b: real): real { if a <= b then a else b }
  function MaxReal(a: real, b: real): real { if a >= b then a else b }

  /** `min(1.0, max(0.0, x))`: x pulled into the unit interval. */
  function Clamp01(x: real): (r: real)
    ensures 0.0 <= r <= 1.0
    ensures 0.0 <= x <= 1.0 ==> r == x
    ensures x > 1.0 ==> r == 1.0
    ensures x < 0.0 ==> r == 0.0
  {
    MinReal(1.0, MaxReal(0.0, x))
  }

  /** The final clamp is written the other way round, `max(0.0, min(1.0, x))`; both orders agree. */
  lemma ClampOrdersAgree(x: real)
    ensures MaxReal(0.0, MinReal(1.0, x)) == Clamp01(x)
  {
  }

  // ---------------------------------------------------------------------------
  // The risk computation

  datatype RiskStatus = LowRisk | MediumRisk | HighRisk | CriticalRisk

  /** The string a tier is sent as in the response. */
  function RiskStatusValue(s: RiskStatus): (v: string)
    ensures |v| > 0
  {
    match s
    case LowRisk => "Low"
    case MediumRisk => "Medium"
    case HighRisk => "High"
    case CriticalRisk => "Critical"
  }

  /** Distinct tiers are sent as distinct strings, so a client can tell them apart. */
  lemma RiskStatusValueInjective(a: RiskStatus, b: RiskStatus)
    ensures RiskStatusValue(a) == RiskStatusValue(b) <==> a == b
  {
  }

  /** A tier's position in the ladder, lowest first. */
  function Rank(s: RiskStatus): nat
  {
    match s
    case LowRisk => 0
    case MediumRisk => 1
    case HighRisk => 2
    case CriticalRisk => 3
  }

  /** The tier ladder, with strict thresholds. */
  function Tier(score: real): (s: RiskStatus)
    ensures s == CriticalRisk <==> score > 0.8
    ensures s == HighRisk <==> 0.6 < score <= 0.8
    ensures s == MediumRisk <==> 0.3 < score <= 0.6
    ensures s == LowRisk <==> score <= 0.3
  {
    if score > 0.8 then CriticalRisk
    else if score > 0.6 then HighRisk
    else if score > 0.3 then MediumRisk
    else LowRisk
  }

  /** A higher score never lands in a lower tier. */
  lemma TierMonotone(a: real, b: real)
    requires a <= b
    ensures Rank(Tier(a)) <= Rank(Tier(b))
  {
  }

  /** The thresholds themselves belong to the tier below. */
  lemma TierBoundaries()
    ensures Tier(0.8) == HighRisk
    ensures Tier(0.6) == MediumRisk
    ensures Tier(0.3) == LowRisk
  {
  }

  /** The score before the category adjustment: the progress ratio scaled by 0.8, perturbed,
      and clamped. */
  function BaseScore(openTimeHours: real, baseSlaHours: int, noise: real): (s: real)
    requires baseSlaHours > 0
    ensures 0.0 <= s <= 1.0
    ensures 0.0 <= (openTimeHours / baseSlaHours as real) * 0.8 + noise <= 1.0 ==>
              s == (openTimeHours / baseSlaHours as real) * 0.8 + noise
  {
    Clamp01((openTimeHours / baseSlaHours as real) * 0.8 + noise)
  }

  /** The category adjustment: one bump of 0.1 for a security or network category (not two
      when both words occur), and 0.05 for software tickets open more than twelve hours. */
  function CategoryBump(category: string, openTimeHours: real): (b: real)
    ensures b == 0.0 || b == 0.05 || b == 0.1 || b == 0.15
    ensures b >= 0.1 <==> Contains(category, "Security") || Contains(category, "Network")
    ensures (b == 0.05 || b == 0.15) <==> Contains(category, "Software") && openTimeHours > 12.0
  {
    var security := if Contains(category, "Security") || Contains(category, "Network") then 0.1 else 0.0;
    var software := if Contains(category, "Software") && openTimeHours > 12.0 then 0.05 else 0.0;
    security + software
  }

  function RiskScore(priority: TicketSchema.Priority, openTimeHours: real, category: string, noise: real): (s: real)
    ensures 0.0 <= s <= 1.0
  {
    var base := BaseScore(openTimeHours, SlaHours(TicketSchema.PriorityValue(priority)), noise);
    MaxReal(0.0, MinReal(1.0, base + CategoryBump(category, openTimeHours)))
  }

  /** The category adjustment never lowers the score, and a category without the three words
      leaves the base score as it is. */
  lemma BumpOnlyRaises(priority: TicketSchema.Priority, openTimeHours: real, category: string, noise: real)
    ensures RiskScore(priority, openTimeHours, category, noise)
            >= BaseScore(openTimeHours, SlaHours(TicketSchema.PriorityValue(priority)), noise)
    ensures !Contains(category, "Security") && !Contains(category, "Network") && !Contains(category, "Software") ==>
              RiskScore(priority, openTimeHours, category, noise)
              == BaseScore(openTimeHours, SlaHours(TicketSchema.PriorityValue(priority)), noise)
  {
  }

  /** A ratio to a positive allowance is below one exactly when the numerator is below it. */
  lemma DivBelowOne(x: real, h: real)
    requires h > 0.0
    ensures x / h < 1.0 <==> x < h
  {
    assert (x / h) * h == x;
  }

  /** The breach time is projected only while the ticket is inside its allowance. */
  function PredictedBreachTime(openTimeHours: real, baseSlaHours: int, now: real): (r: Option<real>)
    requires baseSlaHours > 0
    ensures r.Some? <==> openTimeHours < baseSlaHours as real
    ensures r.Some? ==> r.value > now && r.value - now == baseSlaHours as real - openTimeHours
  {
    DivBelowOne(openTimeHours, baseSlaHours as real);
    if openTimeHours / baseSlaHours as real < 1.0 then Some(now + (baseSlaHours as real - openTimeHours))
    else None
  }

  datatype SlaRiskRequest = SlaRiskRequest(priority: TicketSchema.Priority, openTimeHours: real, category: string)

  datatype SlaRiskResponse = SlaRiskResponse(
    riskScore: real,
    riskStatus: RiskStatus,
    predictedBreachTime: Option<real>,
    modelUsed: string)

  const ModelUsed: string := "Mock Logistic Regression"

  /** The endpoint. `noise` is the draw of `random.uniform(-0.1, 0.1)`, `now` the current time. */
  function PredictSlaRisk(req: SlaRiskRequest, noise: real, now: real): (resp: SlaRiskResponse)
    requires -0.1 <= noise <= 0.1
    ensures 0.0 <= resp.riskScore <= 1.0
    ensures resp.riskStatus == Tier(resp.riskScore)
    ensures resp.predictedBreachTime.Some? <==> req.openTimeHours < SlaHours(TicketSchema.PriorityValue(req.priority)) as real
    ensures resp.predictedBreachTime.Some? ==> resp.predictedBreachTime.value > now
    ensures resp.predictedBreachTime.Some? ==>
              resp.predictedBreachTime.value == now + (SlaHours(TicketSchema.PriorityValue(req.priority)) as real - req.openTimeHours)
    ensures resp.riskScore == RiskScore(req.priority, req.openTimeHours, req.category, noise)
    ensures resp.modelUsed == ModelUsed
  {
    var hours := SlaHours(TicketSchema.PriorityValue(req.priority));
    var score := RiskScore(req.priority, req.openTimeHours, req.category, noise);
    SlaRiskResponse(score, Tier(score), PredictedBreachTime(req.openTimeHours, hours, now), ModelUsed)
  }

  /** A ticket past its allowance scores at least 0.7, whatever the category and the perturbation. */
  lemma OverdueScoresHigh(req: SlaRiskRequest, noise: real, now: real)
    requires -0.1 <= noise <= 0.1
    requires req.openTimeHours >= SlaHours(TicketSchema.PriorityValue(req.priority)) as real
    ensures PredictSlaRisk(req, noise, now).riskScore >= 0.7
    ensures PredictSlaRisk(req, noise, now).predictedBreachTime.None?
  {
    var hours := SlaHours(TicketSchema.PriorityValue(req.priority));
    DivBelowOne(req.openTimeHours, hours as real);
    assert req.openTimeHours / hours as real >= 1.0;
    BumpOnlyRaises(req.priority, req.openTimeHours, req.category, noise);
  }
}
