/** The deterministic parts of the "advanced" agent layer: the keyword
    fallback of the sentiment model, the rules that turn a stock's recent
    returns and volatility into a `MarketPrediction`, the aggregation of
    headline sentiment into a market impact score, and the equal-weight
    fallback of the portfolio optimiser. */
module AdvancedAgents {
  import opened Wrappers
  import opened Text
  import opened Numeric
  import opened OrderedDict

  // ---------------------------------------------------------------------
  // Keyword sentiment (`AIModelManager.analyze_sentiment` without a model)

  const PositiveWords: seq<string> := ["good", "great", "excellent", "positive", "bullish", "up", "gain"]
  const NegativeWords: seq<string> := ["bad", "terrible", "negative", "bearish", "down", "loss", "decline"]

  datatype SentimentScores = SentimentScores(positive: real, negative: real, neutral: real)

  /** The answer when no keyword occurs. */
  const Undecided := SentimentScores(0.5, 0.5, 0.0)

  /** How many of the positive (negative) keywords occur in the lower-cased
      text, each keyword counted once however often it occurs. */
  function PositiveCount(text: string): nat { CountContained(Lower(text), PositiveWords) }
  function NegativeCount(text: string): nat { CountContained(Lower(text), NegativeWords) }

  /** The shares of `pos` positive and `neg` negative keywords among
      those present, or an even split when there are none. */
  function Shares(pos: nat, neg: nat): (s: SentimentScores)
    ensures s.neutral == 0.0
    ensures s.positive + s.negative == 1.0
    ensures 0.0 <= s.positive <= 1.0 && 0.0 <= s.negative <= 1.0
    ensures pos + neg == 0 ==> s == Undecided
    ensures s.positive > s.negative <==> pos > neg
    ensures s.positive == s.negative <==> pos == neg
  {
    if pos + neg == 0 then Undecided
    else
      var t := (pos + neg) as real;
      var p, n := pos as real / t, neg as real / t;
      DivSum(pos as real, neg as real, t);
      DivOrder(pos as real, t, t);
      DivOrder(neg as real, t, t);
      DivOrder((pos - neg) as real, 0.0, t);
      DivOrder(0.0, pos as real, t);
      DivOrder(0.0, neg as real, t);
      SentimentScores(p, n, 0.0)
  }

  /** The keyword fallback: the shares of positive and negative keywords
      found in the text. */
  function KeywordSentiment(text: string): (s: SentimentScores)
    ensures s.neutral == 0.0
    ensures s.positive + s.negative == 1.0
    ensures 0.0 <= s.positive <= 1.0 && 0.0 <= s.negative <= 1.0
    ensures !ContainsAny(Lower(text), PositiveWords) && !ContainsAny(Lower(text), NegativeWords) ==> s == Undecided
  {
    Shares(PositiveCount(text), NegativeCount(text))
  }

  /** The text leans positive exactly when more positive than negative
      keywords occur in it, and is even exactly when the counts agree. */
  lemma KeywordLeaning(text: string)
    ensures KeywordSentiment(text).positive > KeywordSentiment(text).negative <==> PositiveCount(text) > NegativeCount(text)
    ensures KeywordSentiment(text).positive == KeywordSentiment(text).negative <==> PositiveCount(text) == NegativeCount(text)
  {
    var _ := Shares(PositiveCount(text), NegativeCount(text));
  }

  // ---------------------------------------------------------------------
  // Prediction rules (`PredictiveAIAgent.predict_stock_movement`)

  /** The figures the prediction reads from two years of daily closes: the
      last close, the mean of the last 20 daily returns, the last 20-day
      standard deviation of returns and the last 14-day RSI. */
  datatype Features = Features(currentPrice: real, recentReturns: real, volatility: real, rsi: real)

  /** Trading days per horizon: one for "1D", five for "1W", twenty for
      "1M" and sixty for anything else. */
  function HorizonDays(horizon: string): (m: int)
    ensures m == 1 <==> horizon == "1D"
    ensures m == 5 <==> horizon == "1W"
    ensures m == 20 <==> horizon == "1M"
    ensures m == 60 <==> horizon != "1D" && horizon != "1W" && horizon != "1M"
  {
    if horizon == "1D" then 1
    else if horizon == "1W" then 5
    else if horizon == "1M" then 20
    else 60
  }

  function PredictedChange(f: Features, horizon: string): real {
    f.recentReturns * HorizonDays(horizon) as real
  }

  function PredictedPrice(f: Features, horizon: string): real {
    f.currentPrice * (1.0 + PredictedChange(f, horizon))
  }

  /** A longer horizon extrapolates a non-negative trend further: the
      predicted price does not fall as the horizon grows. */
  lemma LongerHorizonFurther(f: Features, h1: string, h2: string)
    requires f.currentPrice >= 0.0 && f.recentReturns >= 0.0
    requires HorizonDays(h1) <= HorizonDays(h2)
    ensures PredictedPrice(f, h1) <= PredictedPrice(f, h2)
  {
    var c1 := PredictedChange(f, h1);
    var c2 := PredictedChange(f, h2);
    assert c1 <= c2 by {
      assert c2 - c1 == f.recentReturns * (HorizonDays(h2) - HorizonDays(h1)) as real;
    }
    assert PredictedPrice(f, h2) - PredictedPrice(f, h1) == f.currentPrice * (c2 - c1);
  }

  /** The band of two standard deviations around the predicted price. */
  datatype Interval = Interval(lower: real, upper: real)

  function ConfidenceInterval(predicted: real, volatility: real): (i: Interval)
    ensures predicted >= 0.0 && volatility >= 0.0 ==> i.lower <= predicted <= i.upper
    ensures i.upper - i.lower == 4.0 * predicted * volatility
    ensures (i.lower + i.upper) / 2.0 == predicted
  {
    Interval(predicted * (1.0 - volatility * 2.0), predicted * (1.0 + volatility * 2.0))
  }

  /** `0.5 + 10 * change`, clamped into [0.1, 0.9]. */
  function ProbabilityUp(change: real): (p: real)
    ensures 0.1 <= p <= 0.9
    ensures p > 0.5 <==> change > 0.0
    ensures p < 0.5 <==> change < 0.0
  {
    MaxR(0.1, MinR(0.9, 0.5 + change * 10.0))
  }

  /** A larger predicted change never lowers the probability of a rise. */
  lemma ProbabilityMonotone(c1: real, c2: real)
    requires c1 <= c2
    ensures ProbabilityUp(c1) <= ProbabilityUp(c2)
  {
  }

  datatype PredictionRisk = LowRisk | MediumRisk | HighRisk {
    function Name(): string {
      match this
      case LowRisk => "LOW"
      case MediumRisk => "MEDIUM"
      case HighRisk => "HIGH"
    }

    function Rank(): nat {
      match this
      case LowRisk => 0
      case MediumRisk => 1
      case HighRisk => 2
    }
  }

  /** Volatility above 0.05 is high risk, above 0.02 medium, else low. */
  function RiskOfVolatility(volatility: real): (r: PredictionRisk)
    ensures r == HighRisk <==> volatility > 0.05
    ensures r == MediumRisk <==> 0.02 < volatility <= 0.05
    ensures r == LowRisk <==> volatility <= 0.02
  {
    if volatility > 0.05 then HighRisk
    else if volatility > 0.02 then MediumRisk
    else LowRisk
  }

  /** More volatility never means a lower risk level. */
  lemma RiskMonotone(v1: real, v2: real)
    requires v1 <= v2
    ensures RiskOfVolatility(v1).Rank() <= RiskOfVolatility(v2).Rank()
  {
  }

  datatype KeyFactor = StrongMomentum | VolatileMarket | Overbought | Oversold {
    function Text(): string {
      match this
      case StrongMomentum => "Strong recent momentum"
      case VolatileMarket => "High volatility environment"
      case Overbought => "Overbought conditions"
      case Oversold => "Oversold conditions"
    }
  }

  function MomentumFactor(f: Features): seq<KeyFactor> {
    if f.recentReturns > 0.01 then [StrongMomentum] else []
  }

  function VolatilityFactor(f: Features): seq<KeyFactor> {
    if f.volatility > 0.03 then [VolatileMarket] else []
  }

  function RsiFactor(f: Features): seq<KeyFactor> {
    if f.rsi > 70.0 then [Overbought] else if f.rsi < 30.0 then [Oversold] else []
  }

  /** The key factors, in the order the rules add them; at most one of the
      two RSI readings. */
  function KeyFactors(f: Features): (k: seq<KeyFactor>)
    ensures StrongMomentum in k <==> f.recentReturns > 0.01
    ensures VolatileMarket in k <==> f.volatility > 0.03
    ensures Overbought in k <==> f.rsi > 70.0
    ensures Oversold in k <==> f.rsi < 30.0
    ensures !(Overbought in k && Oversold in k)
    ensures |k| <= 3
  {
    MomentumFactor(f) + VolatilityFactor(f) + RsiFactor(f)
  }

  datatype MarketPrediction = MarketPrediction(
    symbol: string, horizon: string, predictedPrice: real, interval: Interval,
    probabilityUp: real, keyFactors: seq<KeyFactor>, riskLevel: PredictionRisk)

  /** The prediction for `symbol`; `history` is `None` when the price
      history came back empty, which raises "No data for <symbol>". */
  function PredictStockMovement(symbol: string, horizon: string, history: Option<Features>): (r: Result<MarketPrediction>)
    ensures r.Err? <==> history.None?
    ensures r.Err? ==> r.error == "No data for " + symbol
    ensures r.Ok? ==> r.value.symbol == symbol && r.value.horizon == horizon
    ensures r.Ok? ==> 0.1 <= r.value.probabilityUp <= 0.9
    ensures r.Ok? ==> (r.value.probabilityUp > 0.5 <==> history.value.recentReturns > 0.0)
    ensures r.Ok? && r.value.predictedPrice >= 0.0 && history.value.volatility >= 0.0 ==>
      r.value.interval.lower <= r.value.predictedPrice <= r.value.interval.upper
  {
    match history
    case None => Err("No data for " + symbol)
    case Some(f) =>
      var change := PredictedChange(f, horizon);
      var price := PredictedPrice(f, horizon);
      assert change > 0.0 <==> f.recentReturns > 0.0 by {
        assert HorizonDays(horizon) > 0;
      }
      Ok(MarketPrediction(symbol, horizon, price, ConfidenceInterval(price, f.volatility),
                          ProbabilityUp(change), KeyFactors(f), RiskOfVolatility(f.volatility)))
  }

  // ---------------------------------------------------------------------
  // News sentiment (`PredictiveAIAgent.analyze_news_sentiment`)

  const KeyTopics: seq<string> := ["Federal Reserve", "Tech Stocks", "Energy Transition", "Banking", "Cryptocurrency"]
  const TrendingStocks: seq<string> := ["AAPL", "GOOGL", "TSLA", "MSFT", "NVDA"]
  const SentimentTimeline: Dict<real> := [("1D", 0.6), ("1W", 0.55), ("1M", 0.5)]

  datatype NewsAnalysis = NewsAnalysis(
    overall: SentimentScores, keyTopics: seq<string>, marketImpactScore: real,
    trendingStocks: seq<string>, timeline: Dict<real>)

  /** `(positive - negative + 1) / 2`: within [0, 1] whenever both shares
      are, and equal to the positive share when the two shares add to 1. */
  function MarketImpactScore(s: SentimentScores): (m: real)
    ensures 0.0 <= s.positive <= 1.0 && 0.0 <= s.negative <= 1.0 ==> 0.0 <= m <= 1.0
    ensures s.positive + s.negative == 1.0 ==> m == s.positive
  {
    (s.positive - s.negative + 1.0) / 2.0
  }

  function Positives(ss: seq<SentimentScores>): seq<real> { seq(|ss|, i requires 0 <= i < |ss| => ss[i].positive) }
  function Negatives(ss: seq<SentimentScores>): seq<real> { seq(|ss|, i requires 0 <= i < |ss| => ss[i].negative) }
  function Neutrals(ss: seq<SentimentScores>): seq<real> { seq(|ss|, i requires 0 <= i < |ss| => ss[i].neutral) }

  /** The element-wise mean of the per-headline scores. */
  function MeanScores(ss: seq<SentimentScores>): SentimentScores
    requires |ss| > 0
  {
    SentimentScores(Mean(Positives(ss)), Mean(Negatives(ss)), Mean(Neutrals(ss)))
  }

  function HeadlineSentiments(headlines: seq<string>): (ss: seq<SentimentScores>)
    ensures |ss| == |headlines|
    ensures forall i | 0 <= i < |headlines| :: ss[i] == KeywordSentiment(headlines[i])
  {
    seq(|headlines|, i requires 0 <= i < |headlines| => KeywordSentiment(headlines[i]))
  }

  /** The analysis of a non-empty list of headlines: the element-wise mean
      of their scores, the impact derived from it, and the fixed topic,
      trending-stock and timeline lists. */
  function NewsOf(headlines: seq<string>): (n: NewsAnalysis)
    requires |headlines| > 0
    ensures n.overall == MeanScores(HeadlineSentiments(headlines))
    ensures n.marketImpactScore == MarketImpactScore(n.overall)
    ensures n.keyTopics == KeyTopics && n.trendingStocks == TrendingStocks && n.timeline == SentimentTimeline
  {
    var overall := MeanScores(HeadlineSentiments(headlines));
    NewsAnalysis(overall, KeyTopics, MarketImpactScore(overall), TrendingStocks, SentimentTimeline)
  }

  /** Two sequences whose elements pair up to 1 add up to their length. */
  lemma {:induction false} SumComplement(a: seq<real>, b: seq<real>)
    requires |a| == |b|
    requires forall i | 0 <= i < |a| :: a[i] + b[i] == 1.0
    ensures Sum(a) + Sum(b) == |a| as real
  {
    if |a| > 0 {
      var n := |a| - 1;
      SumComplement(a[..n], b[..n]);
      assert Sum(a) == Sum(a[..n]) + a[n];
      assert Sum(b) == Sum(b[..n]) + b[n];
    }
  }

  /** Averaging scores whose shares each lie in [0, 1] and add to 1 keeps
      both properties. */
  lemma MeanOfShares(ss: seq<SentimentScores>)
    requires |ss| > 0
    requires forall i | 0 <= i < |ss| :: ss[i].positive + ss[i].negative == 1.0 && ss[i].neutral == 0.0
    requires forall i | 0 <= i < |ss| :: 0.0 <= ss[i].positive <= 1.0
    ensures var m := MeanScores(ss);
      m.positive + m.negative == 1.0 && m.neutral == 0.0 && 0.0 <= m.positive <= 1.0 && 0.0 <= m.negative <= 1.0
  {
    var ps, ns, zs := Positives(ss), Negatives(ss), Neutrals(ss);
    var k := |ss| as real;
    SumComplement(ps, ns);
    MeanWithin(ps, 0.0, 1.0);
    MeanWithin(ns, 0.0, 1.0);
    MeanWithin(zs, 0.0, 0.0);
    DivSum(Sum(ps), Sum(ns), k);
    DivOrder(k, k, k);
  }

  /** With the keyword fallback the averaged shares still add to 1 and stay
      within [0, 1], so the market impact score is the mean positive share
      and lies in [0, 1] as the `NewsAnalysis` model field demands. */
  lemma NewsImpactWithinUnit(headlines: seq<string>)
    requires |headlines| > 0
    ensures var n := NewsOf(headlines);
      n.overall.positive + n.overall.negative == 1.0 && n.overall.neutral == 0.0 &&
      0.0 <= n.marketImpactScore <= 1.0 && n.marketImpactScore == n.overall.positive
  {
    MeanOfShares(HeadlineSentiments(headlines));
  }

  /** The loop over the headlines, collecting one score per headline before
      averaging them. */
  method AnalyzeNewsSentiment(headlines: seq<string>) returns (r: NewsAnalysis)
    requires |headlines| > 0
    ensures r == NewsOf(headlines)
    ensures 0.0 <= r.marketImpactScore <= 1.0
  {
    var sentiments: seq<SentimentScores> := [];
    var i := 0;
    while i < |headlines|
      invariant 0 <= i <= |headlines|
      invariant sentiments == HeadlineSentiments(headlines)[..i]
    {
      sentiments := sentiments + [KeywordSentiment(headlines[i])];
      i := i + 1;
    }
    assert sentiments == HeadlineSentiments(headlines);
    var overall := MeanScores(sentiments);
    r := NewsAnalysis(overall, KeyTopics, MarketImpactScore(overall), TrendingStocks, SentimentTimeline);
    NewsImpactWithinUnit(headlines);
  }

  // ---------------------------------------------------------------------
  // Equal-weight fallback (`QuantumPortfolioOptimizer.quantum_optimize`)

  /** `{c: w for c in columns}`: every column once, in order of first
      appearance, each holding `w`. */
  function FillWeights(columns: seq<string>, w: real): (d: Dict<real>)
    ensures Keys(d) == Dedup(columns)
    ensures forall i | 0 <= i < |d| :: d[i].1 == w
  {
    if columns == [] then []
    else
      var init := FillWeights(columns[..|columns| - 1], w);
      var c := columns[|columns| - 1];
      PutKeys(init, c, w);
      PutValues(init, c, w);
      Put(init, c, w)
  }

  lemma {:induction false} PutValues(d: Dict<real>, k: string, w: real)
    requires forall i | 0 <= i < |d| :: d[i].1 == w
    ensures forall i | 0 <= i < |Put(d, k, w)| :: Put(d, k, w)[i].1 == w
  {
    if d != [] && d[0].0 != k {
      PutValues(d[1..], k, w);
    }
  }

  /** The fallback when the optimisation raises: weight `1 / n` for each of
      the `n` columns (no columns give no weights). */
  function EqualWeights(columns: seq<string>): (d: Dict<real>)
    ensures Keys(d) == Dedup(columns)
    ensures forall i | 0 <= i < |d| :: d[i].1 == 1.0 / |columns| as real
  {
    if columns == [] then [] else FillWeights(columns, 1.0 / |columns| as real)
  }

  lemma {:induction false} SumValuesConstant(d: Dict<real>, w: real)
    requires forall i | 0 <= i < |d| :: d[i].1 == w
    ensures SumValues(d) == |d| as real * w
  {
    if d != [] {
      SumValuesConstant(d[1..], w);
    }
  }

  lemma {:induction false} DedupOfDistinct(s: seq<string>)
    requires forall i, j | 0 <= i < j < |s| :: s[i] != s[j]
    ensures Dedup(s) == s
  {
    if s != [] {
      DedupOfDistinct(s[..|s| - 1]);
      DedupMembers(s[..|s| - 1]);
      assert s[|s| - 1] !in s[..|s| - 1];
    }
  }

  /** `n` values of `1 / n` add up to 1. */
  lemma EqualSharesSumToOne(d: Dict<real>)
    requires |d| > 0
    requires forall i | 0 <= i < |d| :: d[i].1 == 1.0 / |d| as real
    ensures SumValues(d) == 1.0
  {
    var n := |d| as real;
    SumValuesConstant(d, 1.0 / n);
    DivOrder(n, n, n);
    assert n * (1.0 / n) == n / n;
  }

  /** For distinct, non-empty columns the fallback weights add up to 1. */
  lemma QuantumFallbackSumsToOne(columns: seq<string>)
    requires |columns| > 0
    requires forall i, j | 0 <= i < j < |columns| :: columns[i] != columns[j]
    ensures SumValues(EqualWeights(columns)) == 1.0
  {
    var d := EqualWeights(columns);
    DedupOfDistinct(columns);
    assert |Keys(d)| == |d|;
    EqualSharesSumToOne(d);
  }
}
