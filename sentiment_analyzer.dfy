/**
 * The multi-aspect sentiment analyzer: each aspect's question is put to the
 * FinRAG query pipeline, the answer is rated in [-1, 1] (by the language model
 * when it answers with a number, by keyword counting otherwise), weighted by
 * the aspect's weight and by the confidence of the retrieval, and the weighted
 * scores are summed and mapped onto 0..100.
 *
 * The query pipeline and the language model are parameters: `query` returns
 * the answer with the scores of its retrieved nodes, or the message of the
 * exception it raised; the model is the `rate` field of `Analyzer`.
 */
module SentimentAnalyzer {
  import opened Wrappers
  import opened Basics
  import opened Text
  import opened Numeric

  const PositiveKeywords: seq<string> := [
    "growth", "increase", "profit", "strong", "positive", "expansion",
    "improvement", "success", "gain", "revenue", "up", "higher", "exceed",
    "robust", "solid", "momentum", "optimistic", "opportunity"
  ]

  const NegativeKeywords: seq<string> := [
    "decline", "decrease", "loss", "weak", "negative", "risk",
    "challenge", "concern", "down", "lower", "miss", "pressure",
    "uncertainty", "headwind", "volatility", "difficult"
  ]

  // ---------------------------------------------------------------------
  // Rating one answer
  // ---------------------------------------------------------------------

  /** `(p - n) / (p + n)`, and 0.0 when neither kind of keyword was found. */
  function KeywordBalance(p: nat, n: nat): (r: real)
    ensures -1.0 <= r <= 1.0
    ensures r > 0.0 <==> p > n
    ensures r < 0.0 <==> p < n
    ensures n == 0 && p > 0 ==> r == 1.0
    ensures p == 0 && n > 0 ==> r == -1.0
  {
    if p + n == 0 then 0.0
    else ((p as real) - (n as real)) / ((p + n) as real)
  }

  /**
   * `SentimentAnalyzer`: the language model, seen as `rate`, which returns the
   * number found in its reply about an aspect's answer, or None when the reply
   * held none or the call failed; and the fallback keyword lists.
   */
  datatype Analyzer = Analyzer(rate: (string, string) -> Option<real>, positive: seq<string>, negative: seq<string>)

  /** `SentimentAnalyzer(qa_model)`: the keyword lists are the fixed ones. */
  function NewAnalyzer(rate: (string, string) -> Option<real>): (an: Analyzer)
    ensures an.rate == rate && |an.positive| == 18 && |an.negative| == 16
    ensures an.positive == PositiveKeywords && an.negative == NegativeKeywords
  {
    Analyzer(rate, PositiveKeywords, NegativeKeywords)
  }

  /** The fallback rating: how many listed keywords occur in the lower-cased text, each counted once. */
  function KeywordSentiment(an: Analyzer, text: string): real {
    var lower := Lower(text);
    KeywordBalance(CountContained(an.positive, lower), CountContained(an.negative, lower))
  }

  /** A keyword rating lies in [-1, 1]; it is 0 when no keyword of either list occurs, +1 when only positive ones do. */
  lemma KeywordSentimentSpec(an: Analyzer, text: string)
    ensures -1.0 <= KeywordSentiment(an, text) <= 1.0
    ensures (forall k :: 0 <= k < |an.positive| ==> !Contains(Lower(text), an.positive[k]))
         && (forall k :: 0 <= k < |an.negative| ==> !Contains(Lower(text), an.negative[k]))
         ==> KeywordSentiment(an, text) == 0.0
    ensures (exists k :: 0 <= k < |an.positive| && Contains(Lower(text), an.positive[k]))
         && (forall k :: 0 <= k < |an.negative| ==> !Contains(Lower(text), an.negative[k]))
         ==> KeywordSentiment(an, text) == 1.0
  {
    CountContainedSpec(an.positive, Lower(text));
    CountContainedSpec(an.negative, Lower(text));
  }

  /** The model's number clamped to [-1, 1], or the keyword rating when it gave none. */
  function ExtractSentimentScore(an: Analyzer, text: string, aspect: string): (r: real)
    ensures -1.0 <= r <= 1.0
    ensures an.rate(text, aspect).Some? && -1.0 <= an.rate(text, aspect).value <= 1.0 ==> r == an.rate(text, aspect).value
    ensures an.rate(text, aspect).None? ==> r == KeywordSentiment(an, text)
  {
    match an.rate(text, aspect)
    case Some(x) => Clamp(x, -1.0, 1.0)
    case None => KeywordSentiment(an, text)
  }

  // ---------------------------------------------------------------------
  // Confidence
  // ---------------------------------------------------------------------

  /** A node's score, 0 when it has none. */
  function NodeScore(score: Option<real>): real {
    if score.Some? then score.value else 0.0
  }

  /** The scores of the first five retrieved nodes. */
  function TopScores(nodes: seq<Option<real>>): (s: seq<real>)
    ensures |s| == Min(|nodes|, 5)
  {
    seq(Min(|nodes|, 5), i requires 0 <= i < Min(|nodes|, 5) => NodeScore(nodes[i]))
  }

  /** The mean of the first five node scores clamped to [0.3, 1.0], and 0.5 when nothing was retrieved. */
  function RetrievalConfidence(nodes: seq<Option<real>>): (r: real)
    ensures nodes == [] ==> r == 0.5
    ensures 0.3 <= r <= 1.0
  {
    if nodes == [] then 0.5 else Clamp(Mean(TopScores(nodes)), 0.3, 1.0)
  }

  /** Only the first five retrieved nodes count. */
  lemma RetrievalConfidenceFirstFive(nodes: seq<Option<real>>, more: seq<Option<real>>)
    requires |nodes| >= 5
    ensures RetrievalConfidence(nodes + more) == RetrievalConfidence(nodes)
  {
    assert TopScores(nodes + more) == TopScores(nodes);
  }

  /** When the mean of the top scores lies in [0.3, 1.0] it is the confidence unchanged. */
  lemma RetrievalConfidenceMean(nodes: seq<Option<real>>)
    requires nodes != []
    requires Within(TopScores(nodes), 0.3, 1.0)
    ensures RetrievalConfidence(nodes) == Mean(TopScores(nodes))
  {
    MeanBounds(TopScores(nodes), 0.3, 1.0);
  }

  // ---------------------------------------------------------------------
  // Aspects
  // ---------------------------------------------------------------------

  datatype Aspect = Aspect(name: string, question: string, weight: real)

  /** What the query pipeline returns: the answer text and the scores of the retrieved nodes. */
  datatype Answer = Answer(text: string, nodeScores: seq<Option<real>>)

  /** One entry of `aspect_scores`: an analyzed aspect, or one whose query raised. */
  datatype AspectDetail =
    | Analyzed(aspect: string, question: string, sentimentScore: real, retrievalConfidence: real,
               weightedScore: real, weight: real, answerPreview: string)
    | Failed(aspect: string, error: string)

  /** A detail's `weighted_score`: a failed aspect records 0. */
  function WeightedScoreOf(d: AspectDetail): real {
    if d.Analyzed? then d.weightedScore else 0.0
  }

  /** A rating in [-1, 1] scaled by a confidence in [0, 1] stays within the weight. */
  lemma ProductBound(s: real, w: real, c: real)
    requires -1.0 <= s <= 1.0 && 0.0 <= c <= 1.0
    ensures 0.0 <= w ==> -w <= s * w * c <= w
  {
    ScaleBetween(s, -1.0, 1.0, c);
    assert -1.0 * c <= s * c <= 1.0 * c;
    assert -1.0 <= s * c <= 1.0;
    assert s * w * c == (s * c) * w;
    if 0.0 <= w {
      ScaleBetween(s * c, -1.0, 1.0, w);
    }
  }

  /** `sentiment_score * weight * retrieval_confidence`: a rating in [-1, 1] damped by a confidence in [0, 1] stays within the weight. */
  function Weigh(s: real, w: real, c: real): (r: real)
    requires -1.0 <= s <= 1.0 && 0.0 <= c <= 1.0
    ensures 0.0 <= w ==> -w <= r <= w
  {
    ProductBound(s, w, c);
    s * w * c
  }

  /** The body of the aspect loop for one aspect. */
  function AnalyzeAspect(a: Aspect, an: Analyzer, query: string -> Result<Answer, string>): (d: AspectDetail)
    ensures d.aspect == a.name
    ensures d.Failed? <==> query(a.question).Err?
    ensures d.Analyzed? ==> -1.0 <= d.sentimentScore <= 1.0 && 0.3 <= d.retrievalConfidence <= 1.0
    ensures d.Analyzed? ==> d.weightedScore == Weigh(d.sentimentScore, a.weight, d.retrievalConfidence) && d.weight == a.weight
  {
    match query(a.question)
    case Err(e) => Failed(a.name, e)
    case Ok(ans) =>
      var s := ExtractSentimentScore(an, ans.text, a.name);
      var c := RetrievalConfidence(ans.nodeScores);
      Analyzed(a.name, a.question, s, c, Weigh(s, a.weight, c), a.weight, Take(ans.text, 200) + "...")
  }

  /** The details of all aspects, in order. */
  function Details(aspects: seq<Aspect>, an: Analyzer, query: string -> Result<Answer, string>): (ds: seq<AspectDetail>)
    ensures |ds| == |aspects|
    decreases |aspects|
  {
    if aspects == [] then []
    else Details(aspects[..|aspects| - 1], an, query) + [AnalyzeAspect(aspects[|aspects| - 1], an, query)]
  }

  /** `aspect_scores` of the source: the weighted scores of the analyzed aspects only. */
  function AnalyzedScores(details: seq<AspectDetail>): (s: seq<real>)
    ensures |s| <= |details|
    decreases |details|
  {
    if details == [] then []
    else
      var last := details[|details| - 1];
      AnalyzedScores(details[..|details| - 1]) + (if last.Analyzed? then [last.weightedScore] else [])
  }

  /** The retrieval confidences of the analyzed aspects. */
  function Confidences(details: seq<AspectDetail>): (s: seq<real>)
    ensures |s| <= |details|
    decreases |details|
  {
    if details == [] then []
    else
      var last := details[|details| - 1];
      Confidences(details[..|details| - 1]) + (if last.Analyzed? then [last.retrievalConfidence] else [])
  }

  /** The mean retrieval confidence as a percentage, and 50 when no aspect was analyzed. */
  function OverallConfidence(details: seq<AspectDetail>): (r: real)
    ensures Confidences(details) == [] ==> r == 50.0
  {
    var c := Confidences(details);
    if c == [] then 50.0 else Mean(c) * 100.0
  }

  /** `max(0, min(100, ((total + 1) / 2) * 100))`. */
  function Normalize(total: real): (r: real)
    ensures 0.0 <= r <= 100.0
    ensures -1.0 <= total <= 1.0 ==> r == ((total + 1.0) / 2.0) * 100.0
  {
    Clamp(((total + 1.0) / 2.0) * 100.0, 0.0, 100.0)
  }

  datatype SentimentResult = SentimentResult(overallScore: real, rawScore: real, aspectScores: seq<AspectDetail>, confidence: real)

  /** Runs every aspect through the query pipeline and sums the weighted scores. */
  method AnalyzeMultiAspectSentiment(aspects: seq<Aspect>, an: Analyzer, query: string -> Result<Answer, string>)
    returns (r: SentimentResult)
    ensures r.aspectScores == Details(aspects, an, query)
    ensures r.rawScore == Sum(AnalyzedScores(r.aspectScores))
    ensures r.overallScore == Normalize(r.rawScore)
    ensures r.confidence == OverallConfidence(r.aspectScores)
  {
    var scores: seq<real> := [];
    var details: seq<AspectDetail> := [];
    for i := 0 to |aspects|
      invariant details == Details(aspects[..i], an, query)
      invariant scores == AnalyzedScores(details)
    {
      assert aspects[..i + 1][..i] == aspects[..i];
      var a := aspects[i];
      ghost var d := AnalyzeAspect(a, an, query);
      assert Details(aspects[..i + 1], an, query) == details + [d];
      assert (details + [d])[..|details|] == details;
      match query(a.question) {
        case Err(e) =>
          details := details + [Failed(a.name, e)];
        case Ok(ans) =>
          var s := ExtractSentimentScore(an, ans.text, a.name);
          var c := RetrievalConfidence(ans.nodeScores);
          var w := Weigh(s, a.weight, c);
          scores := scores + [w];
          details := details + [Analyzed(a.name, a.question, s, c, w, a.weight, Take(ans.text, 200) + "...")];
      }
    }
    assert aspects[..|aspects|] == aspects;
    var total := Sum(scores);
    r := SentimentResult(Normalize(total), total, details, OverallConfidence(details));
  }

  // ---------------------------------------------------------------------
  // Properties of the aggregate
  // ---------------------------------------------------------------------

  /** The weighted score of every detail, a failed one counting 0. */
  function DetailScores(details: seq<AspectDetail>): (s: seq<real>)
    ensures |s| == |details|
  {
    seq(|details|, k requires 0 <= k < |details| => WeightedScoreOf(details[k]))
  }

  /** The raw score is the sum of all details' weighted scores: a failed aspect adds nothing. */
  lemma {:induction false} RawScoreIsDetailSum(details: seq<AspectDetail>)
    ensures Sum(AnalyzedScores(details)) == Sum(DetailScores(details))
    decreases |details|
  {
    if details != [] {
      var init := details[..|details| - 1];
      var last := details[|details| - 1];
      RawScoreIsDetailSum(init);
      assert DetailScores(details) == DetailScores(init) + [WeightedScoreOf(last)];
      SumConcat(DetailScores(init), [WeightedScoreOf(last)]);
      SumConcat(AnalyzedScores(init), if last.Analyzed? then [last.weightedScore] else []);
      assert Sum([WeightedScoreOf(last)]) == Sum([]) + WeightedScoreOf(last);
      if last.Analyzed? {
        assert Sum([last.weightedScore]) == Sum([]) + last.weightedScore;
      }
    }
  }

  /** The weights of the aspects. */
  function Weights(aspects: seq<Aspect>): (w: seq<real>)
    ensures |w| == |aspects|
  {
    seq(|aspects|, k requires 0 <= k < |aspects| => aspects[k].weight)
  }

  /** Appending a detail adds its weighted score to the raw score. */
  lemma AnalyzedScoresSnoc(details: seq<AspectDetail>, d: AspectDetail)
    ensures Sum(AnalyzedScores(details + [d])) == Sum(AnalyzedScores(details)) + WeightedScoreOf(d)
  {
    assert (details + [d])[..|details|] == details;
    var tail := if d.Analyzed? then [d.weightedScore] else [];
    SumConcat(AnalyzedScores(details), tail);
    assert Sum(tail) == WeightedScoreOf(d) by {
      if d.Analyzed? { assert Sum(tail) == Sum([]) + d.weightedScore; }
    }
  }

  /** With non-negative weights the raw score lies within plus or minus the sum of the weights. */
  lemma {:induction false} RawScoreBound(aspects: seq<Aspect>, an: Analyzer, query: string -> Result<Answer, string>)
    requires forall k :: 0 <= k < |aspects| ==> 0.0 <= aspects[k].weight
    ensures -Sum(Weights(aspects)) <= Sum(AnalyzedScores(Details(aspects, an, query))) <= Sum(Weights(aspects))
    decreases |aspects|
  {
    if aspects != [] {
      var init := aspects[..|aspects| - 1];
      var a := aspects[|aspects| - 1];
      RawScoreBound(init, an, query);
      assert Weights(aspects) == Weights(init) + [a.weight];
      SumConcat(Weights(init), [a.weight]);
      assert Sum([a.weight]) == Sum([]) + a.weight;
      AnalyzedScoresSnoc(Details(init, an, query), AnalyzeAspect(a, an, query));
    }
  }

  /** With non-negative weights summing to at most 1 the clamp to 0..100 never binds. */
  lemma NormalizeExact(aspects: seq<Aspect>, an: Analyzer, query: string -> Result<Answer, string>)
    requires forall k :: 0 <= k < |aspects| ==> 0.0 <= aspects[k].weight
    requires Sum(Weights(aspects)) <= 1.0
    ensures Normalize(Sum(AnalyzedScores(Details(aspects, an, query))))
         == ((Sum(AnalyzedScores(Details(aspects, an, query))) + 1.0) / 2.0) * 100.0
  {
    RawScoreBound(aspects, an, query);
  }

  /** Every analyzed aspect's confidence lies in [0.3, 1.0]. */
  lemma {:induction false} ConfidencesWithin(aspects: seq<Aspect>, an: Analyzer, query: string -> Result<Answer, string>)
    ensures Within(Confidences(Details(aspects, an, query)), 0.3, 1.0)
    decreases |aspects|
  {
    if aspects != [] {
      var init := aspects[..|aspects| - 1];
      ConfidencesWithin(init, an, query);
      var d := AnalyzeAspect(aspects[|aspects| - 1], an, query);
      assert Confidences(Details(aspects, an, query))
          == Confidences(Details(init, an, query)) + (if d.Analyzed? then [d.retrievalConfidence] else []);
    }
  }

  /** The overall confidence is 50 when every aspect failed, and otherwise lies between 30 and 100. */
  lemma OverallConfidenceRange(aspects: seq<Aspect>, an: Analyzer, query: string -> Result<Answer, string>)
    ensures 30.0 <= OverallConfidence(Details(aspects, an, query)) <= 100.0
  {
    var c := Confidences(Details(aspects, an, query));
    ConfidencesWithin(aspects, an, query);
    if c != [] {
      MeanBounds(c, 0.3, 1.0);
    }
  }
}
