/** The risk scoring helpers: the mock loan-application risk classifier
    used when no model API key is configured (or the model call fails), the
    clamp applied to a model-returned score, and the mock portfolio insight.
    The random draw and the model's reply are parameters; the model call
    itself is not part of this model. */
module Ai {
  import opened Common

  datatype AiRiskLevel = AiLow | AiMedium | AiHigh
  datatype Recommendation = Approve | Conditional | Review

  /** The numeric part of `RiskScoreResult` (the factor and summary texts are
      not modelled). */
  datatype RiskScoreResult = RiskScoreResult(score: int, riskLevel: AiRiskLevel, recommendation: Recommendation)

  /** `Math.round` for a real number: the nearest integer, halves upwards. */
  function Round(x: real): (n: int)
    ensures n as real - 0.5 <= x < n as real + 0.5
  {
    (x + 0.5).Floor
  }

  /** The level from `loanAmount / (monthlyIncome * 12)`. A zero income gives
      an infinite or undefined ratio in JavaScript: +Infinity and NaN fail
      both thresholds (HIGH), -Infinity passes the first (LOW). */
  function MockLevel(loanAmount: real, monthlyIncome: real): AiRiskLevel {
    if monthlyIncome == 0.0 then (if loanAmount < 0.0 then AiLow else AiHigh)
    else
      var debtToIncome := loanAmount / (monthlyIncome * 12.0);
      if debtToIncome < 0.2 then AiLow else if debtToIncome < 0.4 then AiMedium else AiHigh
  }

  /** `getMockRiskScore`, with `Math.random()` passed in as `r`. */
  function MockRiskScore(loanAmount: real, monthlyIncome: real, r: real): (res: RiskScoreResult)
    requires 0.0 <= r < 1.0
    ensures res.riskLevel == MockLevel(loanAmount, monthlyIncome)
    ensures res.riskLevel == AiLow ==> res.recommendation == Approve && 20 <= res.score <= 35
    ensures res.riskLevel == AiMedium ==> res.recommendation == Conditional && 40 <= res.score <= 60
    ensures res.riskLevel == AiHigh ==> res.recommendation == Review && 65 <= res.score <= 90
  {
    match MockLevel(loanAmount, monthlyIncome)
    case AiLow => RiskScoreResult(Round(20.0 + r * 15.0), AiLow, Approve)
    case AiMedium => RiskScoreResult(Round(40.0 + r * 20.0), AiMedium, Conditional)
    case AiHigh => RiskScoreResult(Round(65.0 + r * 25.0), AiHigh, Review)
  }

  /** For a positive income the level follows the yearly debt-to-income
      ratio: LOW below 0.2, MEDIUM from 0.2 to below 0.4, HIGH from 0.4. */
  lemma MockLevelThresholds(loanAmount: real, monthlyIncome: real)
    requires monthlyIncome > 0.0
    ensures MockLevel(loanAmount, monthlyIncome) == AiLow <==> loanAmount < 2.4 * monthlyIncome
    ensures MockLevel(loanAmount, monthlyIncome) == AiMedium <==>
              2.4 * monthlyIncome <= loanAmount < 4.8 * monthlyIncome
    ensures MockLevel(loanAmount, monthlyIncome) == AiHigh <==> loanAmount >= 4.8 * monthlyIncome
  {
    var yearly := monthlyIncome * 12.0;
    var ratio := loanAmount / yearly;
    assert ratio * yearly == loanAmount;
    ScaleByPositive(ratio, 0.2, yearly);
    ScaleByPositive(ratio, 0.4, yearly);
  }

  lemma ScaleByPositive(x: real, c: real, y: real)
    requires y > 0.0
    ensures x < c <==> x * y < c * y
  {
    assert x * y - c * y == (x - c) * y;
  }

  /** The score ranges of the three levels do not overlap, so the score alone
      tells the level. */
  lemma MockScoreDeterminesLevel(a1: real, i1: real, r1: real, a2: real, i2: real, r2: real)
    requires 0.0 <= r1 < 1.0 && 0.0 <= r2 < 1.0
    requires MockRiskScore(a1, i1, r1).score == MockRiskScore(a2, i2, r2).score
    ensures MockRiskScore(a1, i1, r1).riskLevel == MockRiskScore(a2, i2, r2).riskLevel
  {
  }

  /** `Math.min(100, Math.max(0, score))`. */
  function Clamp(score: real): (c: real)
    ensures 0.0 <= c <= 100.0
    ensures 0.0 <= score <= 100.0 ==> c == score
    ensures score < 0.0 ==> c == 0.0
    ensures score > 100.0 ==> c == 100.0
  {
    if 100.0 < (if 0.0 > score then 0.0 else score) then 100.0
    else if 0.0 > score then 0.0 else score
  }

  /** A parsed model reply. */
  datatype ModelReply = ModelReply(score: real, riskLevel: AiRiskLevel, recommendation: Recommendation)

  datatype ScoredApplication =
    | Mocked(mock: RiskScoreResult)
    | FromModel(score: real, riskLevel: AiRiskLevel, recommendation: Recommendation)

  /** `calculateRiskScore`: without an API key the mock answers; otherwise
      the model's reply (None when the call or the parse fails, which also
      falls back to the mock). */
  function CalculateRiskScore(loanAmount: real, monthlyIncome: real, apiKey: Option<string>,
                              reply: Option<ModelReply>, r: real): (s: ScoredApplication)
    requires 0.0 <= r < 1.0
    ensures s.FromModel? ==> 0.0 <= s.score <= 100.0
  {
    if !Truthy(apiKey) then Mocked(MockRiskScore(loanAmount, monthlyIncome, r))
    else match reply
      case None => Mocked(MockRiskScore(loanAmount, monthlyIncome, r))
      case Some(m) => FromModel(Clamp(m.score), m.riskLevel, m.recommendation)
  }

  /** With no API key the model's reply is never consulted. */
  lemma NoKeyNoModel(loanAmount: real, monthlyIncome: real, reply1: Option<ModelReply>,
                     reply2: Option<ModelReply>, r: real, apiKey: Option<string>)
    requires 0.0 <= r < 1.0 && !Truthy(apiKey)
    ensures CalculateRiskScore(loanAmount, monthlyIncome, apiKey, reply1, r)
            == CalculateRiskScore(loanAmount, monthlyIncome, apiKey, reply2, r)
            == Mocked(MockRiskScore(loanAmount, monthlyIncome, r))
  {
  }

  // ---------------------------------------------------------------------------
  // Portfolio insight

  datatype Health = Healthy | Stable | NeedsAttention

  datatype RiskDistribution = RiskDistribution(low: int, medium: int, high: int)

  /** The decisions inside `getMockPortfolioInsight` (its texts are not
      modelled beyond these choices). */
  datatype MockInsight = MockInsight(
    health: Health,
    withinLimits: bool,
    lowDefaultRiskTrend: bool,
    riskDistribution: RiskDistribution)

  function MockPortfolioInsight(overdueRate: real): MockInsight {
    MockInsight(
      if overdueRate < 0.1 then Healthy else if overdueRate < 0.2 then Stable else NeedsAttention,
      overdueRate < 0.15,
      overdueRate < 0.1,
      RiskDistribution(60, 30, 10))
  }

  /** A healthy portfolio is within limits and reported as low default risk;
      one that needs attention is above target; the mock distribution always
      adds up to 100. */
  lemma MockInsightConsistent(overdueRate: real)
    ensures var m := MockPortfolioInsight(overdueRate);
            && (m.health == Healthy <==> m.lowDefaultRiskTrend)
            && (m.health == Healthy ==> m.withinLimits)
            && (m.health == NeedsAttention ==> !m.withinLimits)
            && m.riskDistribution.low + m.riskDistribution.medium + m.riskDistribution.high == 100
  {
  }
}
