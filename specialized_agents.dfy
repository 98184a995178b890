/** The specialised agents of agents/specialized_agents.py: a stock analyst, a
    portfolio manager and a risk manager, each a `BaseAgent` whose
    `agent_state` goes RUNNING then COMPLETED (or ERROR when its tool
    raises); the master agent that routes a message to one of them by
    keyword, hands a portfolio analysis over to the risk manager and answers
    everything else with a help text; and the runner that records every
    execution under its own run id. Streams are the sequence of chunks they
    yield; an analysis chunk carries the structured report rather than its
    formatted text. */
module SpecializedAgents {
  import opened Wrappers
  import opened Text
  import opened OrderedDict
  import opened BaseAgent

  // ---------------------------------------------------------------------
  // Stock analysis

  /** The one-sentence reading of a price change (lines 44-53). */
  function Commentary(priceChange: real): Momentum {
    if priceChange > 5.0 then StrongMomentum
    else if priceChange > 2.0 then PositiveMomentum
    else if priceChange < -5.0 then SignificantDecline
    else if priceChange < -2.0 then NegativeMomentum
    else Sideways
  }

  /** The five commentary sentences. */
  datatype Momentum = StrongMomentum | PositiveMomentum | SignificantDecline | NegativeMomentum | Sideways {
    function Text(): string {
      match this
      case StrongMomentum => "Strong upward momentum detected. Consider buying on any dips."
      case PositiveMomentum => "Positive momentum. Good entry point for long-term investors."
      case SignificantDecline => "Significant decline. Consider selling or wait for reversal signals."
      case NegativeMomentum => "Negative momentum. Monitor closely for further declines."
      case Sideways => "Sideways movement. Wait for clearer directional signals."
    }
  }

  /** The sentence that goes with each rung of the recommendation ladder. */
  function Outlook(r: Recommendation): Momentum {
    match r
    case StrongBuy => StrongMomentum
    case Buy => PositiveMomentum
    case Sell => SignificantDecline
    case WeakSell => NegativeMomentum
    case Hold => Sideways
  }

  /** The commentary's thresholds are the recommendation ladder's: the
      sentence always matches the recommendation shown above it. */
  lemma CommentaryFollowsRecommendation(priceChange: real)
    ensures Commentary(priceChange) == Outlook(RecommendFor(priceChange).recommendation)
  {
  }

  /** What `analyze_stock` reports: the tool's validated data and the
      commentary on its price change. */
  datatype StockReport = StockReport(data: StockAnalysis, commentary: Momentum)

  /** The outcome of `analyze_stock(symbol)`: the tool's error, or its data
      with the commentary. */
  function StockReportFor(symbol: string, market: map<string, seq<real>>): (r: Result<StockReport>)
    requires PositivePrices(market)
    ensures r.Ok? <==> Lookup(symbol, market).Ok?
    ensures r.Err? ==> r.error == Lookup(symbol, market).error
    ensures r.Ok? ==> r.value.data == Lookup(symbol, market).value
    ensures r.Ok? ==> r.value.commentary == Outlook(r.value.data.recommendation)
  {
    var q := Lookup(symbol, market);
    if q.Err? then Err(q.error)
    else
      GetStockDataContract(symbol, if symbol in market then market[symbol] else []);
      CommentaryFollowsRecommendation(q.value.priceChange);
      Ok(StockReport(q.value, Commentary(q.value.priceChange)))
  }

  /** `StockAnalysisAgent`. */
  class StockAnalysisAgent {
    const agent: Agent

    constructor()
      ensures agent.agentId == "stock_analyst" && agent.name == "Stock Analysis Agent"
      ensures fresh(agent) && fresh(agent.context)
      ensures agent.context.agentState == Idle && agent.context.stateHistory == []
      ensures agent.context.conversationHistory == []
    {
      agent := new Agent("stock_analyst", "Stock Analysis Agent",
                         "Specialized in stock analysis and recommendations");
    }

    /** `analyze_stock(symbol)`: RUNNING, then COMPLETED with the report, or
        ERROR when the tool raises (the error is passed on). */
    method AnalyzeStock(symbol: string, market: map<string, seq<real>>) returns (r: Result<StockReport>)
      requires PositivePrices(market)
      modifies agent.context
      ensures r == StockReportFor(symbol, market)
      ensures agent.context.agentState == if r.Ok? then Completed else Error
      ensures agent.context.stateHistory == old(agent.context.stateHistory) + [Running] + [agent.context.agentState]
      ensures agent.context.conversationHistory == old(agent.context.conversationHistory)
      ensures agent.context.runState == old(agent.context.runState)
    {
      agent.context.SetAgentState(Running);
      r := StockReportFor(symbol, market);
      if r.Err? {
        agent.context.SetAgentState(Error);
        return;
      }
      agent.context.SetAgentState(Completed);
    }
  }

  // ---------------------------------------------------------------------
  // Portfolio analysis

  const WellBalanced := "• Portfolio looks well-balanced. Continue monitoring."

  /** One bullet line per recommendation, in order. */
  function Bullets(recs: seq<string>): string {
    if recs == [] then ""
    else Bullets(recs[..|recs| - 1]) + "• " + recs[|recs| - 1] + "\n"
  }

  /** The recommendations section: the bullets, or the well-balanced line
      when there are none. */
  function Rendered(recs: seq<string>): string {
    if recs == [] then WellBalanced else Bullets(recs)
  }

  /** The bullets are the concatenation of one "• rec\n" line per
      recommendation. */
  lemma {:induction false} BulletsAreLines(recs: seq<string>)
    ensures Bullets(recs) == Concat(seq(|recs|, i requires 0 <= i < |recs| => "• " + recs[i] + "\n"))
  {
    var lines := seq(|recs|, i requires 0 <= i < |recs| => "• " + recs[i] + "\n");
    if recs != [] {
      var init := recs[..|recs| - 1];
      BulletsAreLines(init);
      assert lines[..|lines| - 1] == seq(|init|, i requires 0 <= i < |init| => "• " + init[i] + "\n");
    }
  }

  /** A non-empty bullet list ends with a newline. */
  lemma BulletsEndInNewline(recs: seq<string>)
    requires recs != []
    ensures |Bullets(recs)| > 0 && Bullets(recs)[|Bullets(recs)| - 1] == '\n'
  {
    var b := Bullets(recs);
    var head := Bullets(recs[..|recs| - 1]) + "• " + recs[|recs| - 1];
    assert b == head + "\n";
  }

  /** The well-balanced line is shown exactly when there is no
      recommendation: any bullet list ends with a newline, the line with a
      full stop. */
  lemma WellBalancedIffNone(recs: seq<string>)
    ensures Rendered(recs) == WellBalanced <==> recs == []
  {
    if recs != [] {
      BulletsEndInNewline(recs);
      assert WellBalanced[|WellBalanced| - 1] == '.';
    }
  }

  /** The loop of lines 99-103 that builds the recommendations section. */
  method RenderRecommendations(recs: seq<string>) returns (text: string)
    ensures text == Rendered(recs)
    ensures text == WellBalanced <==> recs == []
  {
    text := "";
    var i := 0;
    while i < |recs|
      invariant 0 <= i <= |recs|
      invariant text == Bullets(recs[..i])
    {
      assert recs[..i + 1][..i] == recs[..i];
      text := text + "• " + recs[i] + "\n";
      i := i + 1;
    }
    assert recs[..i] == recs;
    if recs == [] {
      text := text + WellBalanced;
    }
    WellBalancedIffNone(recs);
  }

  /** What `analyze_portfolio` reports: the tool's analysis and the rendered
      recommendations. */
  datatype PortfolioReport = PortfolioReport(data: PortfolioAnalysis, recommendationText: string)

  /** The outcome of `PortfolioAgent.analyze_portfolio(holdings)`. */
  function PortfolioReportFor(holdings: seq<(string, real)>, market: map<string, seq<real>>, sqrt: real -> real)
    : (r: Result<PortfolioReport>)
    requires IsSqrt(sqrt) && PositivePrices(market)
    ensures r.Err? <==> exists i | 0 <= i < |holdings| :: Lookup(holdings[i].0, market).Err?
    ensures r.Ok? ==> r.value.data == AnalysisOf(holdings, Quotes(holdings, market), sqrt).value
    ensures r.Ok? ==> (r.value.recommendationText == WellBalanced <==> r.value.data.recommendations == [])
  {
    var quotes := Quotes(holdings, market);
    assert forall i | 0 <= i < |holdings| :: quotes[i] == Lookup(holdings[i].0, market);
    var a := AnalysisOf(holdings, quotes, sqrt);
    if a.Err? then Err(a.error)
    else
      WellBalancedIffNone(a.value.recommendations);
      Ok(PortfolioReport(a.value, Rendered(a.value.recommendations)))
  }

  /** `PortfolioAgent`. */
  class PortfolioAgent {
    const agent: Agent

    constructor()
      ensures agent.agentId == "portfolio_manager" && agent.name == "Portfolio Management Agent"
      ensures fresh(agent) && fresh(agent.context)
      ensures agent.context.agentState == Idle && agent.context.stateHistory == []
      ensures agent.context.conversationHistory == []
    {
      agent := new Agent("portfolio_manager", "Portfolio Management Agent",
                         "Specialized in portfolio analysis and optimization");
    }

    /** `analyze_portfolio(holdings)`: RUNNING, then COMPLETED with the
        report, or ERROR when the tool raises. */
    method AnalyzePortfolio(holdings: seq<(string, real)>, market: map<string, seq<real>>, sqrt: real -> real)
      returns (r: Result<PortfolioReport>)
      requires IsSqrt(sqrt) && PositivePrices(market)
      modifies agent.context
      ensures r == PortfolioReportFor(holdings, market, sqrt)
      ensures agent.context.agentState == if r.Ok? then Completed else Error
      ensures agent.context.stateHistory == old(agent.context.stateHistory) + [Running] + [agent.context.agentState]
      ensures agent.context.conversationHistory == old(agent.context.conversationHistory)
      ensures agent.context.runState == old(agent.context.runState)
    {
      agent.context.SetAgentState(Running);
      var analysis := BaseAgent.AnalyzePortfolio(holdings, market, sqrt);
      if analysis.Err? {
        r := Err(analysis.error);
        agent.context.SetAgentState(Error);
        return;
      }
      var text := RenderRecommendations(analysis.value.recommendations);
      r := Ok(PortfolioReport(analysis.value, text));
      agent.context.SetAgentState(Completed);
    }
  }

  // ---------------------------------------------------------------------
  // Risk assessment

  datatype RiskLevel = High | Medium | Low {
    function Label(): string {
      match this
      case High => "HIGH"
      case Medium => "MEDIUM"
      case Low => "LOW"
    }

    function Rank(): int {
      match this
      case Low => 0
      case Medium => 1
      case High => 2
    }
  }

  /** The headline level: HIGH above 7, MEDIUM above 4, LOW otherwise. */
  function LevelOf(riskScore: real): (l: RiskLevel)
    ensures l == High <==> riskScore > 7.0
    ensures l == Medium <==> 4.0 < riskScore <= 7.0
    ensures l == Low <==> riskScore <= 4.0
  {
    if riskScore > 7.0 then High else if riskScore > 4.0 then Medium else Low
  }

  /** A higher score never gives a lower level. */
  lemma LevelMonotone(a: real, b: real)
    requires a <= b
    ensures LevelOf(a).Rank() <= LevelOf(b).Rank()
  {
  }

  /** The bullet lines `assess_risk` can list under "Risk Factors". */
  datatype RiskFactor =
    | HighVolatility | ReducePositions
    | ModerateRisk | MonitorVolatility
    | LowRiskProfile | TooConservative
    | InsufficientDiversification
  {
    function Bullet(): string {
      match this
      case HighVolatility => "• High volatility detected - consider defensive positions\n"
      case ReducePositions => "• Reduce position sizes in volatile assets\n"
      case ModerateRisk => "• Moderate risk level - maintain current strategy\n"
      case MonitorVolatility => "• Monitor for increased volatility\n"
      case LowRiskProfile => "• Low risk profile - consider growth opportunities\n"
      case TooConservative => "• Portfolio may be too conservative\n"
      case InsufficientDiversification => "• Insufficient diversification - add more asset classes\n"
    }
  }

  /** The two risk factors that go with each level. */
  function LevelFactors(level: RiskLevel): seq<RiskFactor> {
    match level
    case High => [HighVolatility, ReducePositions]
    case Medium => [ModerateRisk, MonitorVolatility]
    case Low => [LowRiskProfile, TooConservative]
  }

  /** The risk factors of lines 148-159, in order: two chosen by the score
      with the thresholds of the level, then the diversification warning. */
  function RiskFactors(riskScore: real, diversification: real): (f: seq<RiskFactor>)
    ensures |f| == if diversification < 0.5 then 3 else 2
    ensures f[..2] == LevelFactors(LevelOf(riskScore))
    ensures InsufficientDiversification in f <==> diversification < 0.5
  {
    (if riskScore > 7.0 then [HighVolatility, ReducePositions]
     else if riskScore > 4.0 then [ModerateRisk, MonitorVolatility]
     else [LowRiskProfile, TooConservative])
    + (if diversification < 0.5 then [InsufficientDiversification] else [])
  }

  /** What `assess_risk` reports. */
  datatype RiskReport = RiskReport(level: RiskLevel, riskScore: real, diversification: real, factors: seq<RiskFactor>)

  /** `assess_risk(portfolio_data)`: the score and diversification read with
      defaults 5 and 0.5, the level and the risk-factor lines. */
  function RiskReportFor(portfolioData: map<string, real>): (r: RiskReport)
    ensures r.riskScore == if "risk_score" in portfolioData then portfolioData["risk_score"] else 5.0
    ensures r.diversification ==
      if "diversification_score" in portfolioData then portfolioData["diversification_score"] else 0.5
    ensures r.level == LevelOf(r.riskScore)
    ensures |r.factors| >= 2
    ensures r.factors[..2] == LevelFactors(r.level)
    ensures InsufficientDiversification in r.factors <==> r.diversification < 0.5
  {
    var riskScore := if "risk_score" in portfolioData then portfolioData["risk_score"] else 5.0;
    var diversification :=
      if "diversification_score" in portfolioData then portfolioData["diversification_score"] else 0.5;
    RiskReport(LevelOf(riskScore), riskScore, diversification, RiskFactors(riskScore, diversification))
  }

  /** With no data at all the defaults give a MEDIUM level and no
      diversification warning (0.5 is not below 0.5). */
  lemma DefaultsAreMedium()
    ensures RiskReportFor(map[]).level == Medium
    ensures RiskReportFor(map[]).factors == LevelFactors(Medium)
  {
  }

  /** `RiskAgent`. */
  class RiskAgent {
    const agent: Agent

    constructor()
      ensures agent.agentId == "risk_manager" && agent.name == "Risk Management Agent"
      ensures fresh(agent) && fresh(agent.context)
      ensures agent.context.agentState == Idle && agent.context.stateHistory == []
      ensures agent.context.conversationHistory == []
    {
      agent := new Agent("risk_manager", "Risk Management Agent",
                         "Specialized in risk assessment and management");
    }

    /** `assess_risk(portfolio_data)`: RUNNING, then COMPLETED. */
    method AssessRisk(portfolioData: map<string, real>) returns (r: RiskReport)
      modifies agent.context
      ensures r == RiskReportFor(portfolioData)
      ensures agent.context.agentState == Completed
      ensures agent.context.stateHistory == old(agent.context.stateHistory) + [Running] + [Completed]
      ensures agent.context.conversationHistory == old(agent.context.conversationHistory)
      ensures agent.context.runState == old(agent.context.runState)
    {
      agent.context.SetAgentState(Running);
      r := RiskReportFor(portfolioData);
      agent.context.SetAgentState(Completed);
    }
  }

  // ---------------------------------------------------------------------
  // Routing

  datatype Route = StockRoute | PortfolioRoute | RiskRoute | HelpRoute

  const StockKeywords: seq<string> := ["stock", "ticker", "symbol", "price"]
  const PortfolioKeywords: seq<string> := ["portfolio", "holdings", "allocation"]
  const RiskKeywords: seq<string> := ["risk", "volatility", "safety"]

  /** The branch `route_request` takes: the first keyword group with a
      member inside the lower-cased message. */
  function RouteOf(message: string): Route {
    var m := Lower(message);
    if ContainsAny(m, StockKeywords) then StockRoute
    else if ContainsAny(m, PortfolioKeywords) then PortfolioRoute
    else if ContainsAny(m, RiskKeywords) then RiskRoute
    else HelpRoute
  }

  /** Exactly one branch is taken, by keyword group in priority order: stock
      keywords win over portfolio keywords, which win over risk keywords;
      the help text answers a message with none of them. */
  lemma RoutePriority(message: string)
    ensures var m := Lower(message);
      (RouteOf(message) == StockRoute <==> ContainsAny(m, StockKeywords)) &&
      (RouteOf(message) == PortfolioRoute <==>
         !ContainsAny(m, StockKeywords) && ContainsAny(m, PortfolioKeywords)) &&
      (RouteOf(message) == RiskRoute <==>
         !ContainsAny(m, StockKeywords) && !ContainsAny(m, PortfolioKeywords) && ContainsAny(m, RiskKeywords)) &&
      (RouteOf(message) == HelpRoute <==>
         !ContainsAny(m, StockKeywords) && !ContainsAny(m, PortfolioKeywords) && !ContainsAny(m, RiskKeywords))
  {
  }

  /** Routing ignores letter case. */
  lemma RouteIgnoresCase(message: string)
    ensures RouteOf(Upper(message)) == RouteOf(message)
    ensures RouteOf(Lower(message)) == RouteOf(message)
  {
    LowerOfUpper(message);
    LowerIdempotent(message);
  }

  /** Every keyword holds an 'o', 'r', 's' or 't', so a message without
      those letters gets the help text. */
  lemma HelpWithoutKeywordLetters(message: string)
    requires var m := Lower(message); 'o' !in m && 'r' !in m && 's' !in m && 't' !in m
    ensures RouteOf(message) == HelpRoute
  {
    var m := Lower(message);
    AbsentChar(m, "stock", 's');
    AbsentChar(m, "ticker", 't');
    AbsentChar(m, "symbol", 's');
    AbsentChar(m, "price", 'r');
    AbsentChar(m, "portfolio", 'o');
    AbsentChar(m, "holdings", 'o');
    AbsentChar(m, "allocation", 'o');
    AbsentChar(m, "risk", 'r');
    AbsentChar(m, "volatility", 'o');
    AbsentChar(m, "safety", 's');
  }

  /** The help text advertises "analyze [SYMBOL]" for stock analysis, but
      "analyze AAPL" names no keyword, so it gets the help text again
      instead of an analysis. */
  lemma AnalyzeSymbolGetsHelp()
    ensures RouteOf("analyze AAPL") == HelpRoute
  {
    assert Lower("analyze AAPL") == "analyze aapl";
    HelpWithoutKeywordLetters("analyze AAPL");
  }

  /** A word `route_request` accepts as a ticker: at most five characters,
      all letters. */
  predicate IsTicker(w: string) {
    |w| <= 5 && IsAlpha(w)
  }

  /** The position of the first ticker-like word, if any. */
  function TickerIndex(ws: seq<string>): (r: Option<nat>)
    ensures r.None? ==> forall k | 0 <= k < |ws| :: !IsTicker(ws[k])
    ensures r.Some? ==> r.value < |ws| && IsTicker(ws[r.value])
                        && forall j | 0 <= j < r.value :: !IsTicker(ws[j])
  {
    if ws == [] then None
    else if IsTicker(ws[0]) then Some(0)
    else
      var rest := TickerIndex(ws[1..]);
      assert forall k | 1 <= k < |ws| :: ws[k] == ws[1..][k - 1];
      if rest.Some? then Some(rest.value + 1) else None
  }

  /** A ticker with no ticker before it is the first one. */
  lemma TickerIndexAt(ws: seq<string>, i: nat)
    requires i < |ws| && IsTicker(ws[i])
    requires forall j | 0 <= j < i :: !IsTicker(ws[j])
    ensures TickerIndex(ws) == Some(i)
  {
  }

  /** The first ticker-like word, if any. */
  function FirstTicker(ws: seq<string>): Option<string> {
    var k := TickerIndex(ws);
    if k.None? then None else Some(ws[k.value])
  }

  /** The symbol `route_request` extracts: the first word of the upper-cased
      message that is a ticker. */
  function ExtractedSymbol(message: string): Option<string> {
    FirstTicker(Words(Upper(message)))
  }

  /** The symbol-extraction loop of lines 207-212, over the words of the
      upper-cased message. */
  method FindTicker(words: seq<string>) returns (symbol: Option<string>)
    ensures symbol == FirstTicker(words)
  {
    symbol := None;
    var i := 0;
    while i < |words|
      invariant 0 <= i <= |words|
      invariant forall j | 0 <= j < i :: !IsTicker(words[j])
    {
      if |words[i]| <= 5 && IsAlpha(words[i]) {
        TickerIndexAt(words, i);
        symbol := Some(words[i]);
        return;
      }
      i := i + 1;
    }
  }

  /** Lines 205-212: split the upper-cased message and take its first
      ticker-like word. */
  method ExtractSymbol(message: string) returns (symbol: Option<string>)
    ensures symbol == ExtractedSymbol(message)
  {
    symbol := FindTicker(Words(Upper(message)));
  }

  /** An extracted symbol is one to five upper-case letters, so it passes the
      tool's symbol check unchanged. */
  lemma ExtractedSymbolShape(message: string)
    requires ExtractedSymbol(message).Some?
    ensures var t := ExtractedSymbol(message).value;
      1 <= |t| <= 5 && (forall i | 0 <= i < |t| :: 'A' <= t[i] <= 'Z') && Upper(t) == t
  {
    var ws := Words(Upper(message));
    var k := TickerIndex(ws).value;
    var t := ws[k];
    UpperHasNoLower(message);
    WordsNoLower(Upper(message), 0);
    assert NoLower(t);
    UpperAlpha(t);
  }

  /** For an extracted symbol the tool fails only for a missing price
      history, and reports the symbol itself. */
  lemma ExtractedSymbolAccepted(message: string, market: map<string, seq<real>>)
    requires PositivePrices(market)
    requires ExtractedSymbol(message).Some?
    ensures var t := ExtractedSymbol(message).value;
      (StockReportFor(t, market).Ok? <==> t in market && |market[t]| > 0) &&
      (StockReportFor(t, market).Ok? ==> StockReportFor(t, market).value.data.symbol == t)
  {
    var t := ExtractedSymbol(message).value;
    ExtractedSymbolShape(message);
    GetStockDataContract(t, if t in market then market[t] else []);
  }

  /** The fixed lines `route_request` can yield. */
  datatype Notice = StockBanner | PortfolioBanner | RiskBanner | HandoffBanner | NoSymbol | HelpText {
    function Text(): string {
      match this
      case StockBanner => "🔄 **Routing to Stock Analysis Agent...**\n\n"
      case PortfolioBanner => "🔄 **Routing to Portfolio Management Agent...**\n\n"
      case RiskBanner => "🔄 **Routing to Risk Management Agent...**\n\n"
      case HandoffBanner => "\n🔄 **Handing off to Risk Management Agent...**\n\n"
      case NoSymbol => "❌ Please provide a valid stock symbol (e.g., AAPL, GOOGL)"
      case HelpText => "\n🤖 **AI Finance Advisor**\n\nI can help you with:\n\n📊 **Stock Analysis** - \"Analyze AAPL stock\"\n📋 **Portfolio Review** - \"Analyze my portfolio\"\n🛡️ **Risk Assessment** - \"What's my portfolio risk?\"\n\n**Available Commands:**\n• Stock analysis: \"analyze [SYMBOL]\"\n• Portfolio review: \"review portfolio\"\n• Risk assessment: \"assess risk\"\n\nWhat would you like to explore?\n                "
    }
  }

  /** An output chunk: a fixed line, the error line of a failed branch
      ("❌ Error processing request: " and the error), a report, or the
      runner's line for a failed run ("❌ Execution failed: " and the error). */
  datatype Chunk =
    | Fixed(notice: Notice)
    | RoutingError(error: string)
    | StockChunk(stock: StockReport)
    | PortfolioChunk(portfolio: PortfolioReport)
    | RiskChunk(risk: RiskReport)
    | ExecutionFailed(error: string)

  /** The demonstration holdings the portfolio branch analyses. */
  const DemoPortfolio: seq<(string, real)> := [("AAPL", 10.0), ("GOOGL", 5.0), ("MSFT", 8.0), ("TSLA", 3.0)]

  /** The demonstration data the risk branch assesses. */
  const DemoRiskData: map<string, real> := map["risk_score" := 6.5, "diversification_score" := 0.7]

  /** `portfolio_response.structured_data` as `assess_risk` reads it: the
      numeric fields of the analysis. */
  function HandoffData(a: PortfolioAnalysis): map<string, real> {
    map["total_value" := a.totalValue, "daily_change" := a.dailyChange,
        "risk_score" := a.riskScore, "diversification_score" := a.diversificationScore]
  }

  /** The demonstration holdings number four, so their diversification
      score is 0.4: whenever their analysis succeeds it advises diversifying,
      and the risk manager it hands off to reports insufficient
      diversification. */
  lemma DemoHandoffWarns(market: map<string, seq<real>>, sqrt: real -> real)
    requires IsSqrt(sqrt) && PositivePrices(market)
    requires PortfolioReportFor(DemoPortfolio, market, sqrt).Ok?
    ensures var data := PortfolioReportFor(DemoPortfolio, market, sqrt).value.data;
      data.diversificationScore == 0.4 && DiversifyAdvice in data.recommendations &&
      InsufficientDiversification in RiskReportFor(HandoffData(data)).factors
  {
    var quotes := Quotes(DemoPortfolio, market);
    var data := AnalysisOf(DemoPortfolio, quotes, sqrt).value;
    assert data == ScorePortfolio(PositionsValue(DemoPortfolio, quotes, 4), Changes(quotes), 4, sqrt);
  }

  /** The risk branch's fixed data (score 6.5, diversification 0.7) always
      reads MEDIUM with no diversification warning. */
  lemma DemoRiskIsMedium()
    ensures RiskReportFor(DemoRiskData).level == Medium
    ensures RiskReportFor(DemoRiskData).factors == [ModerateRisk, MonitorVolatility]
  {
    var r := RiskReportFor(DemoRiskData);
    assert r.riskScore == 6.5 && r.diversification == 0.7;
    assert r.factors[..2] == [ModerateRisk, MonitorVolatility];
  }

  /** The chunks the stock branch yields after its banner. */
  function StockChunks(message: string, market: map<string, seq<real>>): seq<Chunk>
    requires PositivePrices(market)
  {
    var symbol := ExtractedSymbol(message);
    if symbol.None? then [Fixed(NoSymbol)]
    else
      var r := StockReportFor(symbol.value, market);
      if r.Ok? then [StockChunk(r.value)] else [RoutingError(r.error)]
  }

  /** The chunks the portfolio branch yields after its banner. */
  function PortfolioChunks(market: map<string, seq<real>>, sqrt: real -> real): seq<Chunk>
    requires IsSqrt(sqrt) && PositivePrices(market)
  {
    var p := PortfolioReportFor(DemoPortfolio, market, sqrt);
    if p.Err? then [RoutingError(p.error)]
    else [PortfolioChunk(p.value), Fixed(HandoffBanner), RiskChunk(RiskReportFor(HandoffData(p.value.data)))]
  }

  /** Everything `route_request` yields once it has chosen `route`. */
  function ChunksFor(route: Route, message: string, market: map<string, seq<real>>, sqrt: real -> real): (cs: seq<Chunk>)
    requires IsSqrt(sqrt) && PositivePrices(market)
    ensures |cs| >= 1
    ensures route == HelpRoute <==> cs == [Fixed(HelpText)]
  {
    match route
    case StockRoute => [Fixed(StockBanner)] + StockChunks(message, market)
    case PortfolioRoute => [Fixed(PortfolioBanner)] + PortfolioChunks(market, sqrt)
    case RiskRoute => [Fixed(RiskBanner), RiskChunk(RiskReportFor(DemoRiskData))]
    case HelpRoute => [Fixed(HelpText)]
  }

  /** The states the stock analyst passes through on `route`. */
  function StockStates(route: Route, message: string, market: map<string, seq<real>>): seq<AgentState>
    requires PositivePrices(market)
  {
    var symbol := ExtractedSymbol(message);
    if route != StockRoute || symbol.None? then []
    else [Running] + [if StockReportFor(symbol.value, market).Ok? then Completed else Error]
  }

  /** The states the portfolio manager passes through on `route`. */
  function PortfolioStates(route: Route, market: map<string, seq<real>>, sqrt: real -> real): seq<AgentState>
    requires IsSqrt(sqrt) && PositivePrices(market)
  {
    if route != PortfolioRoute then []
    else [Running] + [if PortfolioReportFor(DemoPortfolio, market, sqrt).Ok? then Completed else Error]
  }

  /** The states the risk manager passes through on `route`: its own branch,
      or the hand-off after a successful portfolio analysis. */
  function RiskStates(route: Route, market: map<string, seq<real>>, sqrt: real -> real): seq<AgentState>
    requires IsSqrt(sqrt) && PositivePrices(market)
  {
    if route == RiskRoute
       || (route == PortfolioRoute && PortfolioReportFor(DemoPortfolio, market, sqrt).Ok?)
    then [Running] + [Completed]
    else []
  }

  /** The state an agent is left in after passing through `states`. */
  function FinalState(before: AgentState, states: seq<AgentState>): AgentState {
    if states == [] then before else states[|states| - 1]
  }

  /** `MasterFinanceAgent`. */
  class MasterFinanceAgent {
    const agent: Agent
    const stockAgent: StockAnalysisAgent
    const portfolioAgent: PortfolioAgent
    const riskAgent: RiskAgent

    /** The three specialists keep separate contexts. */
    ghost predicate Valid() {
      stockAgent.agent.context != portfolioAgent.agent.context
      && stockAgent.agent.context != riskAgent.agent.context
      && portfolioAgent.agent.context != riskAgent.agent.context
    }

    constructor()
      ensures agent.agentId == "master_finance" && agent.name == "Master Finance Agent"
      ensures fresh(stockAgent.agent.context) && fresh(portfolioAgent.agent.context) && fresh(riskAgent.agent.context)
      ensures Valid()
    {
      agent := new Agent("master_finance", "Master Finance Agent", "Coordinates all financial analysis agents");
      stockAgent := new StockAnalysisAgent();
      portfolioAgent := new PortfolioAgent();
      riskAgent := new RiskAgent();
    }

    /** The stock branch after its banner: extract a ticker and, if there
        is one, ask the stock analyst. */
    method StockBranch(message: string, market: map<string, seq<real>>) returns (chunks: seq<Chunk>)
      requires PositivePrices(market)
      modifies stockAgent.agent.context
      ensures chunks == StockChunks(message, market)
      ensures var states := if ExtractedSymbol(message).None? then [] else
          [Running] + [if StockReportFor(ExtractedSymbol(message).value, market).Ok? then Completed else Error];
        stockAgent.agent.context.stateHistory == old(stockAgent.agent.context.stateHistory) + states &&
        stockAgent.agent.context.agentState == FinalState(old(stockAgent.agent.context.agentState), states)
      ensures stockAgent.agent.context.conversationHistory == old(stockAgent.agent.context.conversationHistory)
    {
      var symbol := ExtractSymbol(message);
      if symbol.None? {
        return [Fixed(NoSymbol)];
      }
      var r := stockAgent.AnalyzeStock(symbol.value, market);
      if r.Ok? {
        chunks := [StockChunk(r.value)];
      } else {
        chunks := [RoutingError(r.error)];
      }
    }

    /** The portfolio branch after its banner: analyse the demonstration
        holdings and, if that succeeds, hand the result to the risk manager. */
    method PortfolioBranch(market: map<string, seq<real>>, sqrt: real -> real) returns (chunks: seq<Chunk>)
      requires Valid() && IsSqrt(sqrt) && PositivePrices(market)
      modifies portfolioAgent.agent.context, riskAgent.agent.context
      ensures chunks == PortfolioChunks(market, sqrt)
      ensures var ok := PortfolioReportFor(DemoPortfolio, market, sqrt).Ok?;
        portfolioAgent.agent.context.stateHistory ==
          old(portfolioAgent.agent.context.stateHistory) + [Running] + [if ok then Completed else Error] &&
        portfolioAgent.agent.context.agentState == (if ok then Completed else Error) &&
        riskAgent.agent.context.stateHistory ==
          old(riskAgent.agent.context.stateHistory) + (if ok then [Running] + [Completed] else []) &&
        riskAgent.agent.context.agentState == (if ok then Completed else old(riskAgent.agent.context.agentState))
      ensures portfolioAgent.agent.context.conversationHistory == old(portfolioAgent.agent.context.conversationHistory)
      ensures riskAgent.agent.context.conversationHistory == old(riskAgent.agent.context.conversationHistory)
    {
      var p := portfolioAgent.AnalyzePortfolio(DemoPortfolio, market, sqrt);
      if p.Err? {
        return [RoutingError(p.error)];
      }
      var risk := riskAgent.AssessRisk(HandoffData(p.value.data));
      chunks := [PortfolioChunk(p.value), Fixed(HandoffBanner), RiskChunk(risk)];
    }

    /** The body of `route_request` once the branch is chosen: the chunks
        of that branch, with each specialist it calls moved through its
        states. */
    method Dispatch(route: Route, message: string, market: map<string, seq<real>>, sqrt: real -> real)
      returns (chunks: seq<Chunk>)
      requires Valid() && IsSqrt(sqrt) && PositivePrices(market)
      modifies stockAgent.agent.context, portfolioAgent.agent.context, riskAgent.agent.context
      ensures chunks == ChunksFor(route, message, market, sqrt)
      ensures stockAgent.agent.context.stateHistory ==
        old(stockAgent.agent.context.stateHistory) + StockStates(route, message, market)
      ensures stockAgent.agent.context.agentState ==
        FinalState(old(stockAgent.agent.context.agentState), StockStates(route, message, market))
      ensures portfolioAgent.agent.context.stateHistory ==
        old(portfolioAgent.agent.context.stateHistory) + PortfolioStates(route, market, sqrt)
      ensures portfolioAgent.agent.context.agentState ==
        FinalState(old(portfolioAgent.agent.context.agentState), PortfolioStates(route, market, sqrt))
      ensures riskAgent.agent.context.stateHistory ==
        old(riskAgent.agent.context.stateHistory) + RiskStates(route, market, sqrt)
      ensures riskAgent.agent.context.agentState ==
        FinalState(old(riskAgent.agent.context.agentState), RiskStates(route, market, sqrt))
      ensures stockAgent.agent.context.conversationHistory == old(stockAgent.agent.context.conversationHistory)
      ensures portfolioAgent.agent.context.conversationHistory == old(portfolioAgent.agent.context.conversationHistory)
      ensures riskAgent.agent.context.conversationHistory == old(riskAgent.agent.context.conversationHistory)
    {
      if route == StockRoute {
        var rest := StockBranch(message, market);
        chunks := [Fixed(StockBanner)] + rest;
      } else if route == PortfolioRoute {
        var rest := PortfolioBranch(market, sqrt);
        chunks := [Fixed(PortfolioBanner)] + rest;
      } else if route == RiskRoute {
        var risk := riskAgent.AssessRisk(DemoRiskData);
        chunks := [Fixed(RiskBanner), RiskChunk(risk)];
      } else {
        chunks := [Fixed(HelpText)];
      }
    }

    /** What answering `message` does to the specialists: each one's state
        history grows by the states its branch passes through, its state is
        the last of them, and no conversation history changes. */
    twostate predicate RoutedAs(message: string, market: map<string, seq<real>>, sqrt: real -> real)
      requires IsSqrt(sqrt) && PositivePrices(market)
      reads stockAgent.agent.context, portfolioAgent.agent.context, riskAgent.agent.context
    {
      var route := RouteOf(message);
      stockAgent.agent.context.stateHistory == old(stockAgent.agent.context.stateHistory) + StockStates(route, message, market)
      && stockAgent.agent.context.agentState == FinalState(old(stockAgent.agent.context.agentState), StockStates(route, message, market))
      && portfolioAgent.agent.context.stateHistory == old(portfolioAgent.agent.context.stateHistory) + PortfolioStates(route, market, sqrt)
      && portfolioAgent.agent.context.agentState == FinalState(old(portfolioAgent.agent.context.agentState), PortfolioStates(route, market, sqrt))
      && riskAgent.agent.context.stateHistory == old(riskAgent.agent.context.stateHistory) + RiskStates(route, market, sqrt)
      && riskAgent.agent.context.agentState == FinalState(old(riskAgent.agent.context.agentState), RiskStates(route, market, sqrt))
      && stockAgent.agent.context.conversationHistory == old(stockAgent.agent.context.conversationHistory)
      && portfolioAgent.agent.context.conversationHistory == old(portfolioAgent.agent.context.conversationHistory)
      && riskAgent.agent.context.conversationHistory == old(riskAgent.agent.context.conversationHistory)
    }

    /** `route_request(message)`: choose the branch by keyword, then run it. */
    method RouteRequest(message: string, market: map<string, seq<real>>, sqrt: real -> real)
      returns (chunks: seq<Chunk>)
      requires Valid() && IsSqrt(sqrt) && PositivePrices(market)
      modifies stockAgent.agent.context, portfolioAgent.agent.context, riskAgent.agent.context
      ensures chunks == ChunksFor(RouteOf(message), message, market, sqrt)
      ensures RoutedAs(message, market, sqrt)
    {
      chunks := Dispatch(RouteOf(message), message, market, sqrt);
    }
  }

  // ---------------------------------------------------------------------
  // Runner

  /** The `status` of a recorded run: "running", "completed" or "failed". */
  datatype RunStatus = RunRunning | RunCompleted | RunFailed {
    function Name(): string {
      match this
      case RunRunning => "running"
      case RunCompleted => "completed"
      case RunFailed => "failed"
    }
  }

  /** One entry of `active_runs`. */
  datatype RunRecord = RunRecord(agentId: string, status: RunStatus, context: map<string, string>, error: Option<string>)

  /** The run id `execute_agent` builds: "run_", the agent id, "_" and the
      number of runs recorded so far. */
  function RunKey(agentId: string, n: nat): string {
    "run_" + agentId + "_" + NatToString(n)
  }

  /** Run ids built with different counters differ, whatever the agent ids:
      the counter is the digits after the last underscore. */
  lemma RunKeyInjective(a: string, m: nat, b: string, n: nat)
    ensures RunKey(a, m) == RunKey(b, n) ==> m == n
  {
    if RunKey(a, m) == RunKey(b, n) {
      SameTailAfterUnderscore("run_" + a, NatToString(m), "run_" + b, NatToString(n));
      NatToStringInjective(m, n);
    }
  }

  /** Every run sits under the id built from its agent and its position. */
  ghost predicate KeyedByPosition(runs: Dict<RunRecord>) {
    forall i | 0 <= i < |runs| :: runs[i].0 == RunKey(runs[i].1.agentId, i)
  }

  /** So the next id is always new, and no two runs share an id. */
  lemma {:induction false} NextKeyFresh(runs: Dict<RunRecord>, agentId: string)
    requires KeyedByPosition(runs)
    ensures RunKey(agentId, |runs|) !in Keys(runs)
    ensures DistinctKeys(runs)
  {
    forall i | 0 <= i < |runs| ensures runs[i].0 != RunKey(agentId, |runs|) {
      RunKeyInjective(runs[i].1.agentId, i, agentId, |runs|);
    }
    forall i, j | 0 <= i < j < |runs| ensures runs[i].0 != runs[j].0 {
      RunKeyInjective(runs[i].1.agentId, i, runs[j].1.agentId, j);
    }
  }

  /** Appending the run numbered `|runs|` under its own id keeps every run
      keyed by its position. */
  lemma KeyedAppend(runs: Dict<RunRecord>, record: RunRecord)
    requires KeyedByPosition(runs)
    ensures KeyedByPosition(runs + [(RunKey(record.agentId, |runs|), record)])
  {
  }

  /** No run of `runs` is marked "running". */
  ghost predicate NoneRunning(runs: Dict<RunRecord>) {
    forall i | 0 <= i < |runs| :: runs[i].1.status != RunRunning
  }

  /** Appending a run that is not "running" keeps none running. */
  lemma NoneRunningAppend(runs: Dict<RunRecord>, key: string, record: RunRecord)
    requires NoneRunning(runs) && record.status != RunRunning
    ensures NoneRunning(runs + [(key, record)])
  {
  }

  /** The runs still marked "running", in order. */
  function RunningOnly(runs: Dict<RunRecord>): (rs: Dict<RunRecord>)
    ensures |rs| <= |runs|
    ensures forall x :: x in rs <==> x in runs && x.1.status == RunRunning
  {
    if runs == [] then []
    else (if runs[0].1.status == RunRunning then [runs[0]] else []) + RunningOnly(runs[1..])
  }

  /** With no run marked "running" the filter is empty. */
  lemma {:induction false} RunningOnlyEmpty(runs: Dict<RunRecord>)
    requires NoneRunning(runs)
    ensures RunningOnly(runs) == []
  {
    if runs != [] {
      assert forall i | 0 <= i < |runs| - 1 :: runs[1..][i] == runs[i + 1];
      RunningOnlyEmpty(runs[1..]);
    }
  }

  /** `AgentRunner`. */
  class AgentRunner {
    var activeRuns: Dict<RunRecord>
    const master: MasterFinanceAgent

    ghost predicate Valid()
      reads this
    {
      master.Valid() && KeyedByPosition(activeRuns)
    }

    /** No run is left "running" between calls. */
    ghost predicate Settled()
      reads this
    {
      NoneRunning(activeRuns)
    }

    constructor()
      ensures activeRuns == [] && fresh(master)
      ensures fresh(master.stockAgent.agent.context) && fresh(master.portfolioAgent.agent.context)
      ensures fresh(master.riskAgent.agent.context)
      ensures Valid() && Settled()
    {
      activeRuns := [];
      master := new MasterFinanceAgent();
    }

    /** `get_run_status(run_id)`: the recorded run, or nothing for an unknown
        id (the `{"status": "not_found"}` answer). */
    function GetRunStatus(runId: string): (r: Option<RunRecord>)
      reads this
      ensures r.None? <==> runId !in Keys(activeRuns)
      ensures r.Some? ==> (runId, r.value) in activeRuns
    {
      Find(activeRuns, runId)
    }

    /** `list_active_runs()`: the runs whose status is "running". */
    function ListActiveRuns(): (rs: Dict<RunRecord>)
      reads this
      ensures forall x :: x in rs <==> x in activeRuns && x.1.status == RunRunning
    {
      RunningOnly(activeRuns)
    }

    /** Between calls nothing is running. */
    lemma SettledHasNoActiveRuns()
      requires Settled()
      ensures ListActiveRuns() == []
    {
      RunningOnlyEmpty(activeRuns);
    }

    /** Lines 283-288: record a new run, "running", under the next id. */
    method OpenRun(agentId: string, context: map<string, string>) returns (runId: string)
      requires KeyedByPosition(activeRuns)
      modifies this
      ensures runId == RunKey(agentId, |old(activeRuns)|) && runId !in Keys(old(activeRuns))
      ensures activeRuns == old(activeRuns) + [(runId, RunRecord(agentId, RunRunning, context, None))]
    {
      runId := RunKey(agentId, |activeRuns|);
      NextKeyFresh(activeRuns, agentId);
      PutFresh(activeRuns, runId, RunRecord(agentId, RunRunning, context, None));
      activeRuns := Put(activeRuns, runId, RunRecord(agentId, RunRunning, context, None));
    }

    /** Lines 295-301: overwrite the newest run's record. */
    method CloseRun(runId: string, finished: RunRecord, ghost before: Dict<RunRecord>, ghost started: RunRecord)
      requires runId !in Keys(before) && activeRuns == before + [(runId, started)]
      modifies this
      ensures activeRuns == before + [(runId, finished)]
    {
      PutLast(before, runId, started, finished);
      activeRuns := Put(activeRuns, runId, finished);
    }

    /** `execute_agent(agent_id, message, context)`: record a run under a
        new id with status "running", route the message, then mark the run
        "completed"; an exception `fault` raised outside the routing marks it
        "failed", keeps the error and adds the failure line. */
    method ExecuteAgent(agentId: string, message: string, context: Option<map<string, string>>,
                        market: map<string, seq<real>>, sqrt: real -> real, fault: Option<string>)
      returns (chunks: seq<Chunk>)
      requires Valid() && IsSqrt(sqrt) && PositivePrices(market)
      modifies this, master.stockAgent.agent.context, master.portfolioAgent.agent.context,
               master.riskAgent.agent.context
      ensures Valid() && (old(Settled()) ==> Settled())
      ensures var record := RunRecord(agentId, if fault.None? then RunCompleted else RunFailed,
                                      if context.None? then map[] else context.value, fault);
        activeRuns == old(activeRuns) + [(RunKey(agentId, |old(activeRuns)|), record)] &&
        GetRunStatus(RunKey(agentId, |old(activeRuns)|)) == Some(record)
      ensures fault.None? ==> chunks == ChunksFor(RouteOf(message), message, market, sqrt)
      ensures fault.Some? ==> chunks == ChunksFor(RouteOf(message), message, market, sqrt) + [ExecutionFailed(fault.value)]
      ensures master.RoutedAs(message, market, sqrt)
    {
      var stored := if context.None? then map[] else context.value;
      ghost var before := activeRuns;
      var runId := OpenRun(agentId, stored);
      chunks := master.RouteRequest(message, market, sqrt);
      var finished := if fault.None? then RunRecord(agentId, RunCompleted, stored, None)
                      else RunRecord(agentId, RunFailed, stored, fault);
      CloseRun(runId, finished, before, RunRecord(agentId, RunRunning, stored, None));
      if fault.Some? {
        chunks := chunks + [ExecutionFailed(fault.value)];
      }
      KeyedAppend(before, finished);
      if NoneRunning(before) {
        NoneRunningAppend(before, runId, finished);
      }
      NextKeyFresh(activeRuns, agentId);
      FindFound(activeRuns, |before|);
    }
  }
}
