/**
 * `QuantitativeScorer` (`scoring/quantitative_scorer.py`): five category scores computed from
 * the financial ratios of a company by bucket tables, and their weighted combination. Floating
 * point is modelled by `real`; a metric that is absent or `None` is `None`.
 */
module QuantitativeScorer {
  import opened Wrappers
  import opened Numeric

  /** The fields of the financial-data dictionary the scorer reads. */
  datatype FinancialData = FinancialData(
    error: Option<string>,
    peRatio: Option<real>,
    pegRatio: Option<real>,
    priceToBook: Option<real>,
    profitMargin: Option<real>,
    operatingMargin: Option<real>,
    roe: Option<real>,
    roa: Option<real>,
    revenueGrowth: Option<real>,
    earningsGrowth: Option<real>,
    debtToEquity: Option<real>,
    currentRatio: Option<real>,
    freeCashFlow: Option<real>,
    priceChange1m: Option<real>,
    priceChange3m: Option<real>,
    priceChange6m: Option<real>,
    priceChange1y: Option<real>,
    recommendationKey: Option<string>,
    targetMeanPrice: Option<real>,
    currentPrice: Option<real>,
    dataCompleteness: Option<real>)

  /** `np.mean(scores) if scores else 50`. */
  function MeanOrNeutral(scores: seq<real>, lo: real, hi: real): (r: real)
    requires lo <= 50.0 <= hi && Within(scores, lo, hi)
    ensures lo <= r <= hi
    ensures scores == [] ==> r == 50.0
  {
    if scores == [] then 50.0
    else
      MeanBounds(scores, lo, hi);
      Mean(scores)
  }

  // ---------------------------------------------------------------------------------------------
  // Valuation: lower ratios are better; only positive ratios count.

  function PeScore(pe: real): (r: real)
    ensures 30.0 <= r <= 90.0
  {
    if pe < 10.0 then 90.0 else if pe < 15.0 then 80.0 else if pe < 20.0 then 70.0
    else if pe < 30.0 then 50.0 else 30.0
  }

  function PegScore(peg: real): (r: real)
    ensures 40.0 <= r <= 85.0
  {
    if peg < 1.0 then 85.0 else if peg < 1.5 then 70.0 else if peg < 2.0 then 55.0 else 40.0
  }

  function PriceToBookScore(pb: real): (r: real)
    ensures 40.0 <= r <= 90.0
  {
    if pb < 1.0 then 90.0 else if pb < 2.0 then 75.0 else if pb < 3.0 then 60.0 else 40.0
  }

  /** A lower ratio never scores lower. */
  lemma ValuationTablesAntitone(x: real, y: real)
    requires x <= y
    ensures PeScore(x) >= PeScore(y) && PegScore(x) >= PegScore(y) && PriceToBookScore(x) >= PriceToBookScore(y)
  {
  }

  function ValuationScores(d: FinancialData): seq<real> {
    (if d.peRatio.Some? && d.peRatio.value > 0.0 then [PeScore(d.peRatio.value)] else [])
    + (if d.pegRatio.Some? && d.pegRatio.value > 0.0 then [PegScore(d.pegRatio.value)] else [])
    + (if d.priceToBook.Some? && d.priceToBook.value > 0.0 then [PriceToBookScore(d.priceToBook.value)] else [])
  }

  /** `_score_valuation`. */
  function ScoreValuation(d: FinancialData): (r: real)
    ensures 30.0 <= r <= 90.0
    ensures ValuationScores(d) == [] ==> r == 50.0
  {
    MeanOrNeutral(ValuationScores(d), 30.0, 90.0)
  }

  // ---------------------------------------------------------------------------------------------
  // Profitability: higher margins and returns are better; ratios are compared as percentages.

  function ProfitMarginScore(m: real): (r: real)
    ensures 40.0 <= r <= 95.0
  {
    var pct := m * 100.0;
    if pct > 20.0 then 95.0 else if pct > 15.0 then 85.0 else if pct > 10.0 then 75.0
    else if pct > 5.0 then 60.0 else 40.0
  }

  function OperatingMarginScore(m: real): (r: real)
    ensures 45.0 <= r <= 95.0
  {
    var pct := m * 100.0;
    if pct > 25.0 then 95.0 else if pct > 15.0 then 80.0 else if pct > 10.0 then 65.0 else 45.0
  }

  function RoeScore(roe: real): (r: real)
    ensures 40.0 <= r <= 90.0
  {
    var pct := roe * 100.0;
    if pct > 20.0 then 90.0 else if pct > 15.0 then 75.0 else if pct > 10.0 then 60.0 else 40.0
  }

  function RoaScore(roa: real): (r: real)
    ensures 40.0 <= r <= 90.0
  {
    var pct := roa * 100.0;
    if pct > 10.0 then 90.0 else if pct > 5.0 then 70.0 else if pct > 2.0 then 55.0 else 40.0
  }

  /** A higher margin or return never scores lower. */
  lemma ProfitabilityTablesMonotone(x: real, y: real)
    requires x <= y
    ensures ProfitMarginScore(x) <= ProfitMarginScore(y) && OperatingMarginScore(x) <= OperatingMarginScore(y)
    ensures RoeScore(x) <= RoeScore(y) && RoaScore(x) <= RoaScore(y)
  {
  }

  function ProfitabilityScores(d: FinancialData): seq<real> {
    (if d.profitMargin.Some? then [ProfitMarginScore(d.profitMargin.value)] else [])
    + (if d.operatingMargin.Some? then [OperatingMarginScore(d.operatingMargin.value)] else [])
    + (if d.roe.Some? then [RoeScore(d.roe.value)] else [])
    + (if d.roa.Some? then [RoaScore(d.roa.value)] else [])
  }

  /** `_score_profitability`. */
  function ScoreProfitability(d: FinancialData): (r: real)
    ensures 40.0 <= r <= 95.0
    ensures ProfitabilityScores(d) == [] ==> r == 50.0
  {
    MeanOrNeutral(ProfitabilityScores(d), 40.0, 95.0)
  }

  // ---------------------------------------------------------------------------------------------
  // Growth

  function RevenueGrowthScore(g: real): (r: real)
    ensures 30.0 <= r <= 95.0
  {
    var pct := g * 100.0;
    if pct > 20.0 then 95.0 else if pct > 15.0 then 85.0 else if pct > 10.0 then 75.0
    else if pct > 5.0 then 60.0 else if pct > 0.0 then 50.0 else 30.0
  }

  function EarningsGrowthScore(g: real): (r: real)
    ensures 40.0 <= r <= 95.0
  {
    var pct := g * 100.0;
    if pct > 25.0 then 95.0 else if pct > 15.0 then 80.0 else if pct > 10.0 then 70.0
    else if pct > 5.0 then 55.0 else 40.0
  }

  function GrowthScores(d: FinancialData): seq<real> {
    (if d.revenueGrowth.Some? then [RevenueGrowthScore(d.revenueGrowth.value)] else [])
    + (if d.earningsGrowth.Some? then [EarningsGrowthScore(d.earningsGrowth.value)] else [])
  }

  /** `_score_growth`. */
  function ScoreGrowth(d: FinancialData): (r: real)
    ensures 30.0 <= r <= 95.0
    ensures GrowthScores(d) == [] ==> r == 50.0
  {
    MeanOrNeutral(GrowthScores(d), 30.0, 95.0)
  }

  // ---------------------------------------------------------------------------------------------
  // Financial health

  function DebtToEquityScore(de: real): (r: real)
    ensures 35.0 <= r <= 95.0
  {
    if de < 0.5 then 95.0 else if de < 1.0 then 80.0 else if de < 1.5 then 65.0
    else if de < 2.0 then 50.0 else 35.0
  }

  function CurrentRatioScore(c: real): (r: real)
    ensures 40.0 <= r <= 90.0
  {
    if c > 2.0 then 90.0 else if c > 1.5 then 80.0 else if c > 1.0 then 60.0 else 40.0
  }

  function FreeCashFlowScore(fcf: real): (r: real)
    ensures 30.0 <= r <= 80.0
  {
    if fcf > 0.0 then 80.0 else 30.0
  }

  function HealthScores(d: FinancialData): seq<real> {
    (if d.debtToEquity.Some? then [DebtToEquityScore(d.debtToEquity.value)] else [])
    + (if d.currentRatio.Some? then [CurrentRatioScore(d.currentRatio.value)] else [])
    + (if d.freeCashFlow.Some? then [FreeCashFlowScore(d.freeCashFlow.value)] else [])
  }

  /** `_score_financial_health`. */
  function ScoreFinancialHealth(d: FinancialData): (r: real)
    ensures 30.0 <= r <= 95.0
    ensures HealthScores(d) == [] ==> r == 50.0
  {
    MeanOrNeutral(HealthScores(d), 30.0, 95.0)
  }

  // ---------------------------------------------------------------------------------------------
  // Momentum: a sum, not a mean.

  /** The bucket of a price change in percent, before its period weight. */
  function PriceChangeScore(change: real): (r: real)
    ensures 30.0 <= r <= 90.0
  {
    if change > 15.0 then 90.0 else if change > 10.0 then 80.0 else if change > 5.0 then 70.0
    else if change > 0.0 then 60.0 else if change > -5.0 then 45.0 else 30.0
  }

  /** `rec_scores.get(rec, 50)`. */
  function RecommendationScore(key: string): (r: real)
    ensures 15.0 <= r <= 95.0
  {
    if key == "strong_buy" then 95.0
    else if key == "buy" then 80.0
    else if key == "hold" then 50.0
    else if key == "sell" then 30.0
    else if key == "strong_sell" then 15.0
    else 50.0
  }

  /** The bucket of the analysts' upside `(target - current) / current` in percent. */
  function UpsideScore(target: real, current: real): (r: real)
    requires current > 0.0
    ensures 40.0 <= r <= 90.0
  {
    var upside := ((target - current) / current) * 100.0;
    if upside > 20.0 then 90.0 else if upside > 10.0 then 75.0 else if upside > 0.0 then 60.0 else 40.0
  }

  /** The weighted price-change buckets for 1, 3, 6 and 12 months. */
  function PriceScores(d: FinancialData): seq<real> {
    PricePart(d.priceChange1m, 0.4) + PricePart(d.priceChange3m, 0.3)
    + PricePart(d.priceChange6m, 0.2) + PricePart(d.priceChange1y, 0.1)
  }

  /** One period's contribution: its bucket times the period weight, when the change is known. */
  function PricePart(change: Option<real>, weight: real): seq<real> {
    if change.Some? then [PriceChangeScore(change.value) * weight] else []
  }

  /** A known period contributes between 30 and 90 times its weight, an unknown one nothing. */
  lemma PricePartBounds(change: Option<real>, weight: real)
    requires 0.0 <= weight
    ensures 0.0 <= Sum(PricePart(change, weight)) <= 90.0 * weight
    ensures PricePart(change, weight) != [] ==> Sum(PricePart(change, weight)) >= 30.0 * weight
  {
    if change.Some? {
      var x := PriceChangeScore(change.value);
      ScaleBetween(x, 30.0, 90.0, weight);
      assert Sum([x * weight]) == Sum([]) + x * weight;
    }
  }

  /** The recommendation counts when it is a non-empty key. */
  function RecommendationScores(d: FinancialData): seq<real> {
    if d.recommendationKey.Some? && d.recommendationKey.value != "" then [RecommendationScore(d.recommendationKey.value)] else []
  }

  /** The upside counts when the target is non-zero and the current price positive. */
  function UpsideScores(d: FinancialData): seq<real> {
    if d.targetMeanPrice.Some? && d.targetMeanPrice.value != 0.0 && d.currentPrice.Some? && d.currentPrice.value > 0.0
    then [UpsideScore(d.targetMeanPrice.value, d.currentPrice.value)]
    else []
  }

  function MomentumScores(d: FinancialData): seq<real> {
    PriceScores(d) + RecommendationScores(d) + UpsideScores(d)
  }

  /** `_score_momentum`: the sum of the contributions, or 50 without any. */
  function ScoreMomentum(d: FinancialData): real {
    if MomentumScores(d) == [] then 50.0 else Sum(MomentumScores(d))
  }

  lemma PriceScoresSum(d: FinancialData)
    ensures 0.0 <= Sum(PriceScores(d)) <= 90.0
    ensures PriceScores(d) != [] ==> Sum(PriceScores(d)) >= 3.0
  {
    var a, b, c, e := PricePart(d.priceChange1m, 0.4), PricePart(d.priceChange3m, 0.3),
                      PricePart(d.priceChange6m, 0.2), PricePart(d.priceChange1y, 0.1);
    PricePartBounds(d.priceChange1m, 0.4);
    PricePartBounds(d.priceChange3m, 0.3);
    PricePartBounds(d.priceChange6m, 0.2);
    PricePartBounds(d.priceChange1y, 0.1);
    SumConcat(a + b + c, e);
    SumConcat(a + b, c);
    SumConcat(a, b);
  }

  /** Momentum is positive and at most 90 + 95 + 90 = 275: the score can leave 0..100. */
  lemma MomentumBounds(d: FinancialData)
    ensures 0.0 < ScoreMomentum(d) <= 275.0
  {
    var p := PriceScores(d);
    var q := RecommendationScores(d);
    var u := UpsideScores(d);
    SumConcat(p + q, u);
    SumConcat(p, q);
    PriceScoresSum(d);
    assert q != [] ==> Sum(q) == q[0];
    assert u != [] ==> Sum(u) == u[0];
  }

  /** A strong-buy rating and a 100% upside alone already give 185. */
  lemma MomentumAboveHundred()
    ensures ScoreMomentum(FinancialData(
      None, None, None, None, None, None, None, None, None, None, None, None, None,
      None, None, None, None, Some("strong_buy"), Some(200.0), Some(100.0), None)) == 185.0
  {
    var d := FinancialData(
      None, None, None, None, None, None, None, None, None, None, None, None, None,
      None, None, None, None, Some("strong_buy"), Some(200.0), Some(100.0), None);
    assert MomentumScores(d) == [95.0, 90.0];
    assert Sum([95.0, 90.0]) == Sum([95.0]) + 90.0;
  }

  // ---------------------------------------------------------------------------------------------
  // Combination

  datatype Breakdown = Breakdown(valuation: real, profitability: real, growth: real, financialHealth: real, momentum: real)

  datatype QuantResult = QuantResult(score: real, confidence: real, breakdown: Option<Breakdown>, error: Option<string>)

  /** The category weights 0.20, 0.25, 0.25, 0.15 and 0.15. */
  function WeightedTotal(b: Breakdown): real {
    b.valuation * 0.20 + b.profitability * 0.25 + b.growth * 0.25 + b.financialHealth * 0.15 + b.momentum * 0.15
  }

  function BreakdownOf(d: FinancialData): Breakdown {
    Breakdown(ScoreValuation(d), ScoreProfitability(d), ScoreGrowth(d), ScoreFinancialHealth(d), ScoreMomentum(d))
  }

  /** `score_financial_data`: a neutral, zero-confidence answer for data carrying an error, else the
    * weighted categories clamped to 0..100 with the data completeness (50 by default) as confidence. */
  function ScoreFinancialData(d: FinancialData): (r: QuantResult)
    ensures d.error.Some? ==> r == QuantResult(50.0, 0.0, None, d.error)
    ensures d.error.None? ==>
      && r.breakdown == Some(BreakdownOf(d))
      && r.error.None?
      && 0.0 <= r.score <= 100.0
      && r.confidence == (if d.dataCompleteness.Some? then d.dataCompleteness.value else 50.0)
  {
    if d.error.Some? then QuantResult(50.0, 0.0, None, d.error)
    else
      var b := BreakdownOf(d);
      QuantResult(
        Clamp(WeightedTotal(b), 0.0, 100.0),
        if d.dataCompleteness.Some? then d.dataCompleteness.value else 50.0,
        Some(b), None)
  }

  /** The weighted total is always above 28, so the lower end of the clamp never applies; it is the
    * weighted total itself whenever that is at most 100. */
  lemma ScoreIsWeightedTotal(d: FinancialData)
    requires d.error.None?
    ensures WeightedTotal(BreakdownOf(d)) > 28.0
    ensures WeightedTotal(BreakdownOf(d)) <= 100.0 ==> ScoreFinancialData(d).score == WeightedTotal(BreakdownOf(d))
    ensures WeightedTotal(BreakdownOf(d)) > 100.0 ==> ScoreFinancialData(d).score == 100.0
  {
    MomentumBounds(d);
  }
}
