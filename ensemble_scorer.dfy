/**
 * The ensemble scorer: five component scores on 0..100 (multi-aspect
 * sentiment, year-over-year trend, risk-adjusted sentiment, quantitative
 * metrics and a language-model judge) are combined with configurable
 * weights into one score with a direction, a confidence, and short lists of
 * key drivers and risk factors.
 *
 * Every answer of the query pipeline or of the language model is a
 * parameter: a `Result` whose error is the message of the exception raised.
 */
module EnsembleScorer {
  import opened Wrappers
  import opened Basics
  import opened Text
  import opened Numeric
  import Q = QuantitativeScorer
  import S = SentimentAnalyzer

  // ---------------------------------------------------------------------
  // Configuration
  // ---------------------------------------------------------------------

  datatype ScoringConfig = ScoringConfig(
    sentimentWeight: real,
    yoyTrendWeight: real,
    riskAdjustedWeight: real,
    quantitativeWeight: real,
    llmJudgeWeight: real,
    sentimentAspects: seq<S.Aspect>,
    timeHorizon: string)

  function TotalWeight(c: ScoringConfig): real {
    c.sentimentWeight + c.yoyTrendWeight + c.riskAdjustedWeight + c.quantitativeWeight + c.llmJudgeWeight
  }

  /** The dataclass constructor with its validation: the five weights must sum to 1 within 0.01. */
  function NewScoringConfig(sentiment: real, yoy: real, risk: real, quant: real, judge: real,
                            aspects: seq<S.Aspect>, timeHorizon: string): (r: Result<ScoringConfig, Error>)
    ensures r.Err? <==> sentiment + yoy + risk + quant + judge > 1.01 || sentiment + yoy + risk + quant + judge < 0.99
    ensures r.Err? ==> r.error.ValueError?
    ensures r.Ok? ==> r.value.sentimentAspects == aspects && r.value.timeHorizon == timeHorizon
    ensures r.Ok? ==> (r.value.sentimentWeight == sentiment && r.value.yoyTrendWeight == yoy
                       && r.value.riskAdjustedWeight == risk && r.value.quantitativeWeight == quant
                       && r.value.llmJudgeWeight == judge)
  {
    var c := ScoringConfig(sentiment, yoy, risk, quant, judge, aspects, timeHorizon);
    var total := TotalWeight(c);
    if total - 1.0 > 0.01 || 1.0 - total > 0.01 then Err(ValueError("Component weights must sum to 1.0"))
    else Ok(c)
  }

  /** The seven default sentiment aspects. */
  const DefaultAspects: seq<S.Aspect> := [
    S.Aspect("Revenue & Growth", "What are the revenue trends, growth rates, and sales performance? Provide specific numbers.", 0.25),
    S.Aspect("Profitability", "What are the profit margins, net income, and profitability trends? Include specific percentages.", 0.20),
    S.Aspect("Risk Factors", "What are the key risk factors, challenges, and threats mentioned in the report?", 0.15),
    S.Aspect("Strategic Initiatives", "What strategic initiatives, innovations, and future plans are mentioned?", 0.15),
    S.Aspect("Market Position", "What is the company's competitive position, market share, and industry standing?", 0.10),
    S.Aspect("Financial Health", "What is the company's financial stability, cash flow, and debt situation?", 0.10),
    S.Aspect("Corporate Governance", "What are the management quality indicators and governance practices?", 0.05)
  ]

  /** `ScoringConfig()` with every default. */
  function DefaultConfig(): Result<ScoringConfig, Error> {
    NewScoringConfig(0.25, 0.20, 0.20, 0.20, 0.15, DefaultAspects, "6-12 months")
  }

  /** The default configuration passes its own validation, with weights summing to exactly 1. */
  lemma DefaultConfigValid()
    ensures DefaultConfig().Ok? && TotalWeight(DefaultConfig().value) == 1.0
    ensures DefaultConfig().value.sentimentAspects == DefaultAspects
  {
  }

  /** The default aspect weights are non-negative and sum to 1, so the sentiment score is never clamped. */
  lemma DefaultAspectWeights()
    ensures forall k :: 0 <= k < |DefaultAspects| ==> 0.0 <= DefaultAspects[k].weight
    ensures Sum(S.Weights(DefaultAspects)) == 1.0
  {
    var w := S.Weights(DefaultAspects);
    assert w == [0.25, 0.20, 0.15, 0.15, 0.10, 0.10, 0.05];
    assert Sum(w[..1]) == 0.25 by { assert w[..1][..0] == []; }
    assert Sum(w[..2]) == 0.45 by { assert w[..2][..1] == w[..1]; }
    assert Sum(w[..3]) == 0.60 by { assert w[..3][..2] == w[..2]; }
    assert Sum(w[..4]) == 0.75 by { assert w[..4][..3] == w[..3]; }
    assert Sum(w[..5]) == 0.85 by { assert w[..5][..4] == w[..4]; }
    assert Sum(w[..6]) == 0.95 by { assert w[..6][..5] == w[..5]; }
    assert w[..7] == w;
  }

  // ---------------------------------------------------------------------
  // Combining the components
  // ---------------------------------------------------------------------

  /** The weighted sum of the five component scores. */
  function FinalScore(c: ScoringConfig, sentiment: real, yoy: real, risk: real, quant: real, judge: real): real {
    sentiment * c.sentimentWeight + yoy * c.yoyTrendWeight + risk * c.riskAdjustedWeight
      + quant * c.quantitativeWeight + judge * c.llmJudgeWeight
  }

  predicate NonNegativeWeights(c: ScoringConfig) {
    0.0 <= c.sentimentWeight && 0.0 <= c.yoyTrendWeight && 0.0 <= c.riskAdjustedWeight
      && 0.0 <= c.quantitativeWeight && 0.0 <= c.llmJudgeWeight
  }

  predicate InScoreRange(x: real) {
    0.0 <= x <= 100.0
  }

  /** A score on 0..100 times a non-negative weight lies between 0 and 100 times the weight. */
  lemma WeightedTermBound(x: real, w: real)
    requires InScoreRange(x) && 0.0 <= w
    ensures 0.0 <= x * w <= 100.0 * w
  {
    ScaleBetween(x, 0.0, 100.0, w);
  }

  /** Adding one weighted score to a partial sum keeps it between 0 and 100 times the weights added so far. */
  lemma AddWeightedTerm(acc: real, bound: real, x: real, w: real)
    requires 0.0 <= acc <= bound && InScoreRange(x) && 0.0 <= w
    ensures 0.0 <= acc + x * w <= bound + 100.0 * w
  {
    WeightedTermBound(x, w);
  }

  /** With non-negative weights, component scores on 0..100 give a final score between 0 and 100 times the weight total. */
  lemma FinalScoreRange(c: ScoringConfig, sentiment: real, yoy: real, risk: real, quant: real, judge: real)
    requires NonNegativeWeights(c)
    requires InScoreRange(sentiment) && InScoreRange(yoy) && InScoreRange(risk) && InScoreRange(quant) && InScoreRange(judge)
    ensures 0.0 <= FinalScore(c, sentiment, yoy, risk, quant, judge) <= 100.0 * TotalWeight(c)
  {
    var a1 := sentiment * c.sentimentWeight;
    var b1 := 100.0 * c.sentimentWeight;
    AddWeightedTerm(0.0, 0.0, sentiment, c.sentimentWeight);
    var a2 := a1 + yoy * c.yoyTrendWeight;
    var b2 := b1 + 100.0 * c.yoyTrendWeight;
    AddWeightedTerm(a1, b1, yoy, c.yoyTrendWeight);
    var a3 := a2 + risk * c.riskAdjustedWeight;
    var b3 := b2 + 100.0 * c.riskAdjustedWeight;
    AddWeightedTerm(a2, b2, risk, c.riskAdjustedWeight);
    var a4 := a3 + quant * c.quantitativeWeight;
    var b4 := b3 + 100.0 * c.quantitativeWeight;
    AddWeightedTerm(a3, b3, quant, c.quantitativeWeight);
    AddWeightedTerm(a4, b4, judge, c.llmJudgeWeight);
  }

  datatype Direction = Bearish | Neutral | Bullish

  /** Bullish from 65 up, bearish up to 45, neutral between. */
  function DirectionOf(score: real): Direction {
    if score >= 65.0 then Bullish
    else if score <= 45.0 then Bearish
    else Neutral
  }

  /** The direction's name as the result reports it. */
  function DirectionName(d: Direction): string {
    match d
    case Bullish => "bullish"
    case Bearish => "bearish"
    case Neutral => "neutral"
  }

  function DirectionRank(d: Direction): int {
    match d
    case Bearish => 0
    case Neutral => 1
    case Bullish => 2
  }

  /** A higher score never gives a more bearish direction. */
  lemma DirectionMonotone(x: real, y: real)
    requires x <= y
    ensures DirectionRank(DirectionOf(x)) <= DirectionRank(DirectionOf(y))
  {
  }

  // ---------------------------------------------------------------------
  // Year-over-year trend
  // ---------------------------------------------------------------------

  /** Python truthiness of an optional number: present and non-zero. */
  predicate Truthy(x: Option<real>) {
    x.Some? && x.value != 0.0
  }

  /** A growth rate as points: 100 per unit of growth, capped at plus or minus 20. */
  function GrowthPoints(g: Option<real>): (p: real)
    ensures -20.0 <= p <= 20.0
    ensures p > 0.0 <==> g.Some? && g.value > 0.0
    ensures p < 0.0 <==> g.Some? && g.value < 0.0
    ensures g.Some? && -0.2 <= g.value <= 0.2 ==> p == g.value * 100.0
  {
    if Truthy(g) && g.value > 0.0 then (if 20.0 <= g.value * 100.0 then 20.0 else g.value * 100.0)
    else if Truthy(g) && g.value < 0.0 then (if -20.0 >= g.value * 100.0 then -20.0 else g.value * 100.0)
    else 0.0
  }

  /** Faster growth never earns fewer points. */
  lemma GrowthPointsMonotone(x: real, y: real)
    requires x <= y
    ensures GrowthPoints(Some(x)) <= GrowthPoints(Some(y))
  {
  }

  /** Words of an accelerating and of a slowing trend, and the phrases of high, medium and low risk. */
  datatype Lexicon = Lexicon(accelerating: seq<string>, slowing: seq<string>,
                             highRisk: seq<string>, mediumRisk: seq<string>, lowRisk: seq<string>)

  const DefaultLexicon: Lexicon := Lexicon(
    ["accelerating", "increasing", "strong growth"],
    ["declining", "decreasing", "slowing"],
    ["significant risk", "major concern", "substantial uncertainty", "critical"],
    ["moderate risk", "some concern", "potential challenge"],
    ["minimal risk", "manageable", "mitigated"])

  /** Ten points if any accelerating word occurs in the lower-cased text, minus ten if any slowing word does. */
  function TrendPoints(lex: Lexicon, text: string): real {
    var lower := Lower(text);
    (if CountContained(lex.accelerating, lower) > 0 then 10.0 else 0.0)
      - (if CountContained(lex.slowing, lower) > 0 then 10.0 else 0.0)
  }

  /** The trend points are +10, 0 or -10, by which word lists occur in the text. */
  lemma TrendPointsSpec(lex: Lexicon, text: string)
    ensures var acc := exists k :: 0 <= k < |lex.accelerating| && Contains(Lower(text), lex.accelerating[k]);
            var slow := exists k :: 0 <= k < |lex.slowing| && Contains(Lower(text), lex.slowing[k]);
            TrendPoints(lex, text) == (if acc then 10.0 else 0.0) - (if slow then 10.0 else 0.0)
  {
    CountContainedSpec(lex.accelerating, Lower(text));
    CountContainedSpec(lex.slowing, Lower(text));
  }

  /** `_analyze_yoy_trends`: 50 plus growth and trend points clamped to 0..100, or 50 when the query raised. */
  function YoyScore(lex: Lexicon, revenueGrowth: Option<real>, earningsGrowth: Option<real>, trend: Result<string, string>): (r: real)
    ensures InScoreRange(r)
    ensures trend.Err? ==> r == 50.0
  {
    match trend
    case Err(_) => 50.0
    case Ok(text) => Clamp(50.0 + GrowthPoints(revenueGrowth) + GrowthPoints(earningsGrowth) + TrendPoints(lex, text), 0.0, 100.0)
  }

  /** The clamp never binds: the points add up to at most plus or minus 50. */
  lemma YoyScoreUnclamped(lex: Lexicon, revenueGrowth: Option<real>, earningsGrowth: Option<real>, text: string)
    ensures YoyScore(lex, revenueGrowth, earningsGrowth, Ok(text))
         == 50.0 + GrowthPoints(revenueGrowth) + GrowthPoints(earningsGrowth) + TrendPoints(lex, text)
  {
    TrendPointsSpec(lex, text);
  }

  // ---------------------------------------------------------------------
  // Risk adjustment
  // ---------------------------------------------------------------------

  /** Five points off per high-risk phrase, two per medium one, two back per low one. */
  function RiskAdjustment(lex: Lexicon, text: string): int {
    var lower := Lower(text);
    var high: int := CountContained(lex.highRisk, lower);
    var medium: int := CountContained(lex.mediumRisk, lower);
    var low: int := CountContained(lex.lowRisk, lower);
    -high * 5 - medium * 2 + low * 2
  }

  /** With the default phrases the adjustment lies between -26 and +6, and is 0 when no phrase occurs. */
  lemma RiskAdjustmentRange(text: string)
    ensures -26 <= RiskAdjustment(DefaultLexicon, text) <= 6
    ensures (forall k :: 0 <= k < |DefaultLexicon.highRisk| ==> !Contains(Lower(text), DefaultLexicon.highRisk[k]))
         && (forall k :: 0 <= k < |DefaultLexicon.mediumRisk| ==> !Contains(Lower(text), DefaultLexicon.mediumRisk[k]))
         && (forall k :: 0 <= k < |DefaultLexicon.lowRisk| ==> !Contains(Lower(text), DefaultLexicon.lowRisk[k]))
         ==> RiskAdjustment(DefaultLexicon, text) == 0
  {
    var lower := Lower(text);
    CountContainedSpec(DefaultLexicon.highRisk, lower);
    CountContainedSpec(DefaultLexicon.mediumRisk, lower);
    CountContainedSpec(DefaultLexicon.lowRisk, lower);
  }

  /** `_calculate_risk_adjusted_score`: the sentiment score moved by the adjustment and clamped, or unchanged when the query raised. */
  function RiskAdjustedScore(lex: Lexicon, base: real, risk: Result<string, string>): (r: real)
    ensures risk.Err? ==> r == base
    ensures risk.Ok? ==> InScoreRange(r)
    ensures risk.Ok? ==> (base + RiskAdjustment(lex, risk.value) as real <= 0.0 <==> r == 0.0)
  {
    match risk
    case Err(_) => base
    case Ok(text) => Clamp(base + RiskAdjustment(lex, text) as real, 0.0, 100.0)
  }

  /** A base score in 26..94 is moved by exactly the adjustment, as the default adjustment cannot leave 0..100. */
  lemma RiskAdjustedUnclamped(base: real, text: string)
    requires 26.0 <= base <= 94.0
    ensures RiskAdjustedScore(DefaultLexicon, base, Ok(text)) == base + RiskAdjustment(DefaultLexicon, text) as real
  {
    RiskAdjustmentRange(text);
  }

  // ---------------------------------------------------------------------
  // Language-model judge
  // ---------------------------------------------------------------------

  /**
   * `_llm_judge_score`: the number in the judge's reply clamped to 0..100, 50 when the
   * reply held none, and the mean of the other three scores when the query or the model raised.
   */
  function LlmJudgeScore(judge: Result<Option<real>, string>, sentiment: real, yoy: real, quant: real): (r: real)
    ensures judge.Err? ==> r == (sentiment + yoy + quant) / 3.0
    ensures judge == Ok(None) ==> r == 50.0
    ensures judge.Ok? ==> InScoreRange(r)
    ensures judge.Ok? && judge.value.Some? && InScoreRange(judge.value.value) ==> r == judge.value.value
  {
    match judge
    case Err(_) => (sentiment + yoy + quant) / 3.0
    case Ok(None) => 50.0
    case Ok(Some(x)) => Clamp(x, 0.0, 100.0)
  }

  /** The fallback mean stays on 0..100 when the other scores do. */
  lemma LlmJudgeRange(judge: Result<Option<real>, string>, sentiment: real, yoy: real, quant: real)
    requires InScoreRange(sentiment) && InScoreRange(yoy) && InScoreRange(quant)
    ensures InScoreRange(LlmJudgeScore(judge, sentiment, yoy, quant))
  {
  }

  // ---------------------------------------------------------------------
  // Confidence
  // ---------------------------------------------------------------------

  /** Agreement of the component scores: 100 less twice their standard deviation, at least 0. */
  function Agreement(std: real): (a: real)
    ensures 0.0 <= a
    ensures 0.0 <= std ==> a <= 100.0
  {
    if 100.0 - std * 2.0 >= 0.0 then 100.0 - std * 2.0 else 0.0
  }

  /** `_calculate_ensemble_confidence`: agreement, data quality and sentiment confidence weighted 0.4, 0.3, 0.3, clamped to 0..100. */
  function EnsembleConfidence(std: real, dataQuality: real, sentimentConfidence: real): (r: real)
    ensures InScoreRange(r)
  {
    Clamp(Agreement(std) * 0.4 + dataQuality * 0.3 + sentimentConfidence * 0.3, 0.0, 100.0)
  }

  /** More spread among the component scores never raises the confidence; with inputs on 0..100 the clamp never binds. */
  lemma EnsembleConfidenceSpec(std1: real, std2: real, dataQuality: real, sentimentConfidence: real)
    requires std1 <= std2
    ensures EnsembleConfidence(std2, dataQuality, sentimentConfidence) <= EnsembleConfidence(std1, dataQuality, sentimentConfidence)
    ensures 0.0 <= std1 && InScoreRange(dataQuality) && InScoreRange(sentimentConfidence) ==>
      EnsembleConfidence(std1, dataQuality, sentimentConfidence) == Agreement(std1) * 0.4 + dataQuality * 0.3 + sentimentConfidence * 0.3
  {
    ClampMonotone(Agreement(std2) * 0.4 + dataQuality * 0.3 + sentimentConfidence * 0.3,
                  Agreement(std1) * 0.4 + dataQuality * 0.3 + sentimentConfidence * 0.3, 0.0, 100.0);
  }

  // ---------------------------------------------------------------------
  // Key drivers and risk factors
  // ---------------------------------------------------------------------

  /** The labels of the items that `keep` selects, in order. */
  function Select<T>(xs: seq<T>, keep: T -> bool, tag: T -> string): (r: seq<string>)
    ensures |r| <= |xs|
    decreases |xs|
  {
    if xs == [] then []
    else Select(xs[..|xs| - 1], keep, tag) + (if keep(xs[|xs| - 1]) then [tag(xs[|xs| - 1])] else [])
  }

  /** Exactly the labels of the selected items are listed. */
  lemma {:induction false} SelectSpec<T>(xs: seq<T>, keep: T -> bool, tag: T -> string)
    ensures forall k :: 0 <= k < |xs| && keep(xs[k]) ==> tag(xs[k]) in Select(xs, keep, tag)
    ensures forall s :: s in Select(xs, keep, tag) ==> exists k :: 0 <= k < |xs| && keep(xs[k]) && s == tag(xs[k])
    decreases |xs|
  {
    if xs != [] {
      var init := xs[..|xs| - 1];
      SelectSpec(init, keep, tag);
      assert forall k :: 0 <= k < |init| ==> init[k] == xs[k];
    }
  }

  /** An aspect's sentiment score, 0 for one whose analysis failed. */
  function SentimentOf(d: S.AspectDetail): real {
    if d.Analyzed? then d.sentimentScore else 0.0
  }

  predicate IsStrong(d: S.AspectDetail) {
    SentimentOf(d) > 0.5
  }

  function StrongLabel(d: S.AspectDetail): string {
    d.aspect + ": Strong performance"
  }

  predicate IsConcern(d: S.AspectDetail) {
    SentimentOf(d) < -0.3
  }

  function ConcernLabel(d: S.AspectDetail): string {
    d.aspect + ": Concerns identified"
  }

  /** The quantitative breakdown as (category, score) pairs in the order the scorer builds it; none without a breakdown. */
  function Categories(b: Option<Q.Breakdown>): (cs: seq<(string, real)>)
    ensures |cs| == (if b.Some? then 5 else 0)
  {
    match b
    case None => []
    case Some(x) =>
      [("valuation", x.valuation), ("profitability", x.profitability), ("growth", x.growth),
       ("financial_health", x.financialHealth), ("momentum", x.momentum)]
  }

  predicate IsExcellent(c: (string, real)) {
    c.1 > 75.0
  }

  function ExcellentLabel(c: (string, real)): string {
    KeyTitle(c.0) + ": Excellent metrics"
  }

  /** `_extract_key_drivers`: strong aspects, then excellent categories, at most five. */
  function KeyDrivers(details: seq<S.AspectDetail>, breakdown: Option<Q.Breakdown>): seq<string> {
    Take(Select(details, IsStrong, StrongLabel) + Select(Categories(breakdown), IsExcellent, ExcellentLabel), 5)
  }

  /** At most five drivers; a failed aspect is never one; the first five strong aspects crowd out every category. */
  lemma KeyDriversSpec(details: seq<S.AspectDetail>, breakdown: Option<Q.Breakdown>)
    ensures |KeyDrivers(details, breakdown)| <= 5
    ensures forall s :: s in KeyDrivers(details, breakdown) ==>
      (exists k :: 0 <= k < |details| && details[k].Analyzed? && details[k].sentimentScore > 0.5 && s == StrongLabel(details[k]))
      || (exists k :: 0 <= k < |Categories(breakdown)| && Categories(breakdown)[k].1 > 75.0 && s == ExcellentLabel(Categories(breakdown)[k]))
    ensures |Select(details, IsStrong, StrongLabel)| >= 5 ==> KeyDrivers(details, breakdown) == Select(details, IsStrong, StrongLabel)[..5]
  {
    SelectSpec(details, IsStrong, StrongLabel);
    SelectSpec(Categories(breakdown), IsExcellent, ExcellentLabel);
    var a := Select(details, IsStrong, StrongLabel);
    var c := Select(Categories(breakdown), IsExcellent, ExcellentLabel);
    forall s | s in KeyDrivers(details, breakdown)
      ensures s in a || s in c
    {
      assert s in a + c;
    }
    if |a| >= 5 {
      assert (a + c)[..5] == a[..5];
    }
  }

  /** `_extract_key_drivers` as the source writes it: two loops appending, then the first five. */
  method ExtractKeyDrivers(details: seq<S.AspectDetail>, breakdown: Option<Q.Breakdown>) returns (drivers: seq<string>)
    ensures drivers == KeyDrivers(details, breakdown)
  {
    var all: seq<string> := [];
    for i := 0 to |details|
      invariant all == Select(details[..i], IsStrong, StrongLabel)
    {
      assert details[..i + 1][..i] == details[..i];
      if SentimentOf(details[i]) > 0.5 {
        all := all + [details[i].aspect + ": Strong performance"];
      }
    }
    assert details[..|details|] == details;
    var cats := Categories(breakdown);
    var strong := all;
    for j := 0 to |cats|
      invariant all == strong + Select(cats[..j], IsExcellent, ExcellentLabel)
    {
      assert cats[..j + 1][..j] == cats[..j];
      if cats[j].1 > 75.0 {
        all := all + [KeyTitle(cats[j].0) + ": Excellent metrics"];
      }
    }
    assert cats[..|cats|] == cats;
    drivers := Take(all, 5);
  }

  /** The risks read from the financial data: leverage above 2 and a margin under 5%, each only when truthy. */
  function DataRisks(data: Q.FinancialData, fmt: (real, nat) -> string): seq<string> {
    (if Truthy(data.debtToEquity) && data.debtToEquity.value > 2.0
     then ["High debt-to-equity ratio: " + fmt(data.debtToEquity.value, 2)] else [])
    + (if Truthy(data.profitMargin) && data.profitMargin.value < 0.05
       then ["Low profit margin: " + fmt(data.profitMargin.value * 100.0, 1) + "%"] else [])
  }

  /** `_extract_risk_factors`: aspects of concern, then the data risks, at most five. */
  function RiskFactors(details: seq<S.AspectDetail>, data: Q.FinancialData, fmt: (real, nat) -> string): seq<string> {
    Take(Select(details, IsConcern, ConcernLabel) + DataRisks(data, fmt), 5)
  }

  /**
   * At most five risks; each is an aspect of concern or a data risk. A margin of exactly
   * zero is falsy and so reported like a missing one, while any margin strictly between 0 and 0.05 is reported.
   */
  lemma RiskFactorsSpec(details: seq<S.AspectDetail>, data: Q.FinancialData, fmt: (real, nat) -> string)
    ensures |RiskFactors(details, data, fmt)| <= 5
    ensures forall s :: s in RiskFactors(details, data, fmt) ==>
      (exists k :: 0 <= k < |details| && details[k].Analyzed? && details[k].sentimentScore < -0.3 && s == ConcernLabel(details[k]))
      || s in DataRisks(data, fmt)
    ensures data.profitMargin == Some(0.0) ==> DataRisks(data, fmt) == DataRisks(data.(profitMargin := None), fmt)
    ensures data.profitMargin.Some? && 0.0 < data.profitMargin.value < 0.05 ==>
      "Low profit margin: " + fmt(data.profitMargin.value * 100.0, 1) + "%" in DataRisks(data, fmt)
  {
    SelectSpec(details, IsConcern, ConcernLabel);
    var a := Select(details, IsConcern, ConcernLabel);
    forall s | s in RiskFactors(details, data, fmt)
      ensures s in a || s in DataRisks(data, fmt)
    {
      assert s in a + DataRisks(data, fmt);
    }
  }

  /** `_extract_risk_factors` as the source writes it: a loop over the aspects, two checks, then the first five. */
  method ExtractRiskFactors(details: seq<S.AspectDetail>, data: Q.FinancialData, fmt: (real, nat) -> string) returns (risks: seq<string>)
    ensures risks == RiskFactors(details, data, fmt)
  {
    var all: seq<string> := [];
    for i := 0 to |details|
      invariant all == Select(details[..i], IsConcern, ConcernLabel)
    {
      assert details[..i + 1][..i] == details[..i];
      if SentimentOf(details[i]) < -0.3 {
        all := all + [details[i].aspect + ": Concerns identified"];
      }
    }
    assert details[..|details|] == details;
    if Truthy(data.debtToEquity) && data.debtToEquity.value > 2.0 {
      all := all + ["High debt-to-equity ratio: " + fmt(data.debtToEquity.value, 2)];
    }
    if Truthy(data.profitMargin) && data.profitMargin.value < 0.05 {
      all := all + ["Low profit margin: " + fmt(data.profitMargin.value * 100.0, 1) + "%"];
    }
    risks := Take(all, 5);
  }

  // ---------------------------------------------------------------------
  // Display of a list
  // ---------------------------------------------------------------------

  function Bullet(item: string): string {
    "  • " + item
  }

  function Bullets(items: seq<string>): (r: seq<string>)
    ensures |r| == |items|
  {
    seq(|items|, k requires 0 <= k < |items| => Bullet(items[k]))
  }

  /** `_format_list`: a placeholder for no items, else one bulleted line per item. */
  function FormatList(items: seq<string>): string {
    if items == [] then "  (None identified)" else Join("\n", Bullets(items))
  }

  /** Items without line breaks come back line by line: each line is the bullet followed by the item. */
  lemma FormatListLines(items: seq<string>)
    requires items != []
    requires forall k :: 0 <= k < |items| ==> '\n' !in items[k]
    ensures |Split(FormatList(items), '\n')| == |items|
    ensures forall k :: 0 <= k < |items| ==> Split(FormatList(items), '\n')[k] == "  • " + items[k]
  {
    var b := Bullets(items);
    forall k | 0 <= k < |b|
      ensures '\n' !in b[k]
    {
      assert b[k] == "  • " + items[k];
    }
    JoinSplit(b, '\n');
  }

  // ---------------------------------------------------------------------
  // The whole scoring run
  // ---------------------------------------------------------------------

  datatype ScoringResult = ScoringResult(
    score: real,
    direction: Direction,
    confidence: real,
    sentimentScore: real,
    yoyTrendScore: real,
    riskAdjustedScore: real,
    quantitativeScore: real,
    llmJudgeScore: real,
    keyDrivers: seq<string>,
    riskFactors: seq<string>,
    ticker: string,
    timeHorizon: string)

  /**
   * `score_company`: the five components in order, their weighted sum, its direction, the
   * confidence and the two lists. `trend`, `risk` and `judge` are the answers to the trend,
   * risk and judge queries; `stdev` is the population standard deviation of the five scores.
   */
  method ScoreCompany(config: ScoringConfig, an: S.Analyzer, query: string -> Result<S.Answer, string>,
                      data: Q.FinancialData, trend: Result<string, string>, risk: Result<string, string>,
                      judge: Result<Option<real>, string>, stdev: seq<real> -> real, fmt: (real, nat) -> string,
                      ticker: string)
    returns (r: ScoringResult)
    ensures var details := S.Details(config.sentimentAspects, an, query);
      && r.sentimentScore == S.Normalize(Sum(S.AnalyzedScores(details)))
      && r.yoyTrendScore == YoyScore(DefaultLexicon, data.revenueGrowth, data.earningsGrowth, trend)
      && r.riskAdjustedScore == RiskAdjustedScore(DefaultLexicon, r.sentimentScore, risk)
      && r.quantitativeScore == Q.ScoreFinancialData(data).score
      && r.llmJudgeScore == LlmJudgeScore(judge, r.sentimentScore, r.yoyTrendScore, r.quantitativeScore)
      && r.keyDrivers == KeyDrivers(details, Q.ScoreFinancialData(data).breakdown)
      && r.riskFactors == RiskFactors(details, data, fmt)
      && r.confidence == EnsembleConfidence(stdev([r.sentimentScore, r.yoyTrendScore, r.riskAdjustedScore,
                                                   r.quantitativeScore, r.llmJudgeScore]),
                                            Q.ScoreFinancialData(data).confidence, S.OverallConfidence(details))
    ensures InScoreRange(r.sentimentScore) && InScoreRange(r.yoyTrendScore) && InScoreRange(r.riskAdjustedScore)
         && InScoreRange(r.quantitativeScore) && InScoreRange(r.llmJudgeScore) && InScoreRange(r.confidence)
    ensures r.score == FinalScore(config, r.sentimentScore, r.yoyTrendScore, r.riskAdjustedScore, r.quantitativeScore, r.llmJudgeScore)
    ensures NonNegativeWeights(config) ==> 0.0 <= r.score <= 100.0 * TotalWeight(config)
    ensures r.direction == DirectionOf(r.score)
    ensures r.timeHorizon == config.timeHorizon && r.ticker == ticker
  {
    var sentiment := S.AnalyzeMultiAspectSentiment(config.sentimentAspects, an, query);
    var sentimentScore := sentiment.overallScore;
    var yoy := YoyScore(DefaultLexicon, data.revenueGrowth, data.earningsGrowth, trend);
    var riskScore := RiskAdjustedScore(DefaultLexicon, sentimentScore, risk);
    var quant := Q.ScoreFinancialData(data);
    LlmJudgeRange(judge, sentimentScore, yoy, quant.score);
    var judgeScore := LlmJudgeScore(judge, sentimentScore, yoy, quant.score);
    var finalScore := FinalScore(config, sentimentScore, yoy, riskScore, quant.score, judgeScore);
    if NonNegativeWeights(config) {
      FinalScoreRange(config, sentimentScore, yoy, riskScore, quant.score, judgeScore);
    }
    var direction := DirectionOf(finalScore);
    var confidence := EnsembleConfidence(stdev([sentimentScore, yoy, riskScore, quant.score, judgeScore]),
                                         quant.confidence, sentiment.confidence);
    var drivers := ExtractKeyDrivers(sentiment.aspectScores, quant.breakdown);
    var risks := ExtractRiskFactors(sentiment.aspectScores, data, fmt);
    r := ScoringResult(finalScore, direction, confidence, sentimentScore, yoy, riskScore, quant.score,
                       judgeScore, drivers, risks, ticker, config.timeHorizon);
  }

  /** A validated configuration with non-negative weights keeps the final score on 0..101. */
  lemma ValidatedScoreRange(c: ScoringConfig, sentiment: real, yoy: real, risk: real, quant: real, judge: real)
    requires NewScoringConfig(c.sentimentWeight, c.yoyTrendWeight, c.riskAdjustedWeight, c.quantitativeWeight,
                              c.llmJudgeWeight, c.sentimentAspects, c.timeHorizon).Ok?
    requires NonNegativeWeights(c)
    requires InScoreRange(sentiment) && InScoreRange(yoy) && InScoreRange(risk) && InScoreRange(quant) && InScoreRange(judge)
    ensures 0.0 <= FinalScore(c, sentiment, yoy, risk, quant, judge) <= 101.0
  {
    FinalScoreRange(c, sentiment, yoy, risk, quant, judge);
  }
}
