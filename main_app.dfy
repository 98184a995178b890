/** The chat application around the agents: the per-session data it keeps
    (profile defaults, conversation history, watchlist), the allocation
    bars it draws, the conversion of a submitted portfolio into holdings,
    the dispatch of button actions and the handling of a chat message. */
module MainApp {
  import opened Wrappers
  import opened Text
  import opened Numeric
  import opened OrderedDict
  import opened BaseAgent
  import opened SpecializedAgents

  // ---------------------------------------------------------------------
  // Allocation bars (`format_allocation`)

  const FilledCell := '█'
  const EmptyCell := '░'

  /** `int(percentage / 5)`: the number of filled cells. */
  function FilledCells(percentage: real): int {
    Trunc(percentage / 5.0)
  }

  /** Filled cells followed by empty cells up to twenty. */
  function Bar(percentage: real): (b: string)
    ensures |b| == if FilledCells(percentage) <= 0 then 20 - FilledCells(percentage)
                   else if FilledCells(percentage) >= 20 then FilledCells(percentage) else 20
  {
    Repeat(FilledCell, FilledCells(percentage)) + Repeat(EmptyCell, 20 - FilledCells(percentage))
  }

  /** For a percentage between 0 and 100 the bar is exactly twenty cells:
      one filled cell per whole five percent, the rest empty. */
  lemma BarShape(percentage: real)
    requires 0.0 <= percentage <= 100.0
    ensures var k := FilledCells(percentage);
      0 <= k <= 20 && k as real * 5.0 <= percentage < (k + 1) as real * 5.0 &&
      |Bar(percentage)| == 20 &&
      (forall i | 0 <= i < k :: Bar(percentage)[i] == FilledCell) &&
      (forall i | k <= i < 20 :: Bar(percentage)[i] == EmptyCell)
  {
    var k := FilledCells(percentage);
    var b := Bar(percentage);
    var f, e := Repeat(FilledCell, k), Repeat(EmptyCell, 20 - k);
    assert b == f + e;
    forall i | k <= i < 20 ensures b[i] == EmptyCell {
      assert b[i] == e[i - k];
    }
  }

  /** A larger share never draws fewer filled cells. */
  lemma BarMonotone(p: real, q: real)
    requires p <= q
    ensures FilledCells(p) <= FilledCells(q)
  {
  }

  /** One line of the allocation text: the asset, its percentage and bar. */
  datatype AllocationLine = AllocationLine(asset: string, percentage: real, bar: string)

  /** `format_allocation(allocation)`: one line per asset, in the order of
      the dictionary. */
  method FormatAllocation(allocation: Dict<real>) returns (lines: seq<AllocationLine>)
    ensures |lines| == |allocation|
    ensures forall i | 0 <= i < |allocation| ::
      lines[i] == AllocationLine(allocation[i].0, allocation[i].1, Bar(allocation[i].1))
  {
    lines := [];
    for i := 0 to |allocation|
      invariant |lines| == i
      invariant forall j | 0 <= j < i ::
        lines[j] == AllocationLine(allocation[j].0, allocation[j].1, Bar(allocation[j].1))
    {
      var (asset, percentage) := allocation[i];
      lines := lines + [AllocationLine(asset, percentage, Bar(percentage))];
    }
  }

  // ---------------------------------------------------------------------
  // Holdings conversion (`process_portfolio_review`)

  /** One entry of the submitted portfolio; an absent field is `None`. */
  datatype Holding = Holding(symbol: Option<string>, shares: Option<real>, price: Option<real>) {
    function Symbol(): string { symbol.GetOr("") }
    function Shares(): real { shares.GetOr(0.0) }
    function Price(): real { price.GetOr(0.0) }
  }

  function Symbols(portfolio: seq<Holding>): (s: seq<string>)
    ensures |s| == |portfolio|
    ensures forall i | 0 <= i < |portfolio| :: s[i] == portfolio[i].Symbol()
  {
    seq(|portfolio|, i requires 0 <= i < |portfolio| => portfolio[i].Symbol())
  }

  /** The entry stored per holding: as written, shares times price; as
      `analyze_portfolio` reads it, the number of shares. */
  function ValueEntry(h: Holding): real { h.Shares() * h.Price() }
  function SharesEntry(h: Holding): real { h.Shares() }

  /** `holdings_dict[symbol] = value(holding)` for each holding in turn. */
  function FillHoldings(portfolio: seq<Holding>, value: Holding -> real): (d: Dict<real>)
    ensures Keys(d) == Dedup(Symbols(portfolio))
  {
    if portfolio == [] then []
    else
      var n := |portfolio| - 1;
      var init := FillHoldings(portfolio[..n], value);
      assert Symbols(portfolio) == Symbols(portfolio[..n]) + [portfolio[n].Symbol()];
      PutKeys(init, portfolio[n].Symbol(), value(portfolio[n]));
      Put(init, portfolio[n].Symbol(), value(portfolio[n]))
  }

  /** Each symbol holds the value of its last holding: a later duplicate
      overwrites an earlier one. */
  lemma {:induction false} LastHoldingWins(portfolio: seq<Holding>, value: Holding -> real, i: nat)
    requires i < |portfolio|
    requires forall j | i < j < |portfolio| :: portfolio[j].Symbol() != portfolio[i].Symbol()
    ensures Get(FillHoldings(portfolio, value), portfolio[i].Symbol(), 0.0) == value(portfolio[i])
  {
    var n := |portfolio| - 1;
    var init := FillHoldings(portfolio[..n], value);
    if i == n {
      PutGetSame(init, portfolio[n].Symbol(), value(portfolio[n]), 0.0);
    } else {
      LastHoldingWins(portfolio[..n], value, i);
      PutKeepsOthers(init, portfolio[n].Symbol(), value(portfolio[n]), portfolio[i].Symbol(), 0.0);
    }
  }

  /** The conversion as written: the position's value, shares times price,
      stored where `analyze_portfolio` expects a number of shares. */
  function HoldingValuesAsWritten(portfolio: seq<Holding>): (d: Dict<real>)
    ensures Keys(d) == Dedup(Symbols(portfolio))
  {
    FillHoldings(portfolio, ValueEntry)
  }

  /** `analyze_portfolio` multiplies each entry by the current price, so
      the conversion as written counts the price twice: the analysed worth
      of a position is its true worth scaled by the submitted price. */
  lemma PriceCountedTwice(portfolio: seq<Holding>, i: nat, quote: StockAnalysis)
    requires i < |portfolio|
    requires forall j | i < j < |portfolio| :: portfolio[j].Symbol() != portfolio[i].Symbol()
    ensures var h := portfolio[i];
      Worth(quote, Get(HoldingValuesAsWritten(portfolio), h.Symbol(), 0.0)) == Worth(quote, h.Shares()) * h.Price()
  {
    var h := portfolio[i];
    LastHoldingWins(portfolio, ValueEntry, i);
    var v := Get(HoldingValuesAsWritten(portfolio), h.Symbol(), 0.0);
    assert v == h.Shares() * h.Price();
    assert quote.currentPrice * (h.Shares() * h.Price()) == (quote.currentPrice * h.Shares()) * h.Price();
  }

  /** Ten shares bought at 150 and still quoted at 150 are analysed as
      worth 225000 instead of 1500. */
  lemma PriceCountedTwiceExample(quote: StockAnalysis)
    requires quote.currentPrice == 150.0
    ensures var p := [Holding(Some("AAPL"), Some(10.0), Some(150.0))];
      Worth(quote, Get(HoldingValuesAsWritten(p), "AAPL", 0.0)) == 225000.0 &&
      p[0].Shares() * p[0].Price() == 1500.0
  {
    var p := [Holding(Some("AAPL"), Some(10.0), Some(150.0))];
    PriceCountedTwice(p, 0, quote);
  }

  /** The corrected conversion: each symbol maps to its number of shares,
      the unit `analyze_portfolio` prices. */
  function HoldingShares(portfolio: seq<Holding>): (d: Dict<real>)
    ensures Keys(d) == Dedup(Symbols(portfolio))
  {
    FillHoldings(portfolio, SharesEntry)
  }

  /** With the corrected conversion the analysed worth of a position is its
      shares at the current price, and equals the submitted shares times
      price whenever the quote still stands at the submitted price. */
  lemma CorrectedWorthIsMarketValue(portfolio: seq<Holding>, i: nat, quote: StockAnalysis)
    requires i < |portfolio|
    requires forall j | i < j < |portfolio| :: portfolio[j].Symbol() != portfolio[i].Symbol()
    ensures var h := portfolio[i];
      Worth(quote, Get(HoldingShares(portfolio), h.Symbol(), 0.0)) == h.Shares() * quote.currentPrice &&
      (quote.currentPrice == h.Price() ==>
         Worth(quote, Get(HoldingShares(portfolio), h.Symbol(), 0.0)) == h.Shares() * h.Price())
  {
    var h := portfolio[i];
    LastHoldingWins(portfolio, SharesEntry, i);
    var v := Get(HoldingShares(portfolio), h.Symbol(), 0.0);
    assert v == h.Shares();
    assert Worth(quote, v) == h.Shares() * quote.currentPrice;
  }

  /** The loop that fills the holdings dictionary, with the corrected
      entry. */
  method ConvertHoldings(portfolio: seq<Holding>) returns (holdings: Dict<real>)
    ensures holdings == HoldingShares(portfolio)
  {
    holdings := [];
    for i := 0 to |portfolio|
      invariant holdings == FillHoldings(portfolio[..i], SharesEntry)
    {
      assert portfolio[..i + 1][..i] == portfolio[..i];
      holdings := Put(holdings, portfolio[i].Symbol(), portfolio[i].Shares());
    }
    assert portfolio[..|portfolio|] == portfolio;
  }

  /** What a portfolio review shows: a warning for an empty portfolio, the
      error the analysis raised, or the analysis. */
  datatype ReviewOutcome = MissingPortfolio | ReviewFailed(error: string) | Reviewed(report: PortfolioReport)

  function ReviewOf(portfolio: seq<Holding>, market: map<string, seq<real>>, sqrt: real -> real): ReviewOutcome
    requires IsSqrt(sqrt) && PositivePrices(market)
  {
    if portfolio == [] then MissingPortfolio
    else
      var r := PortfolioReportFor(HoldingShares(portfolio), market, sqrt);
      if r.Err? then ReviewFailed(r.error) else Reviewed(r.value)
  }

  /** Holdings are counted after merging repeated symbols: the review asks
      for more diversification exactly when fewer than five distinct
      symbols were submitted. */
  lemma ReviewCountsDistinctSymbols(portfolio: seq<Holding>, market: map<string, seq<real>>, sqrt: real -> real)
    requires IsSqrt(sqrt) && PositivePrices(market)
    ensures ReviewOf(portfolio, market, sqrt).MissingPortfolio? <==> portfolio == []
    ensures ReviewOf(portfolio, market, sqrt).Reviewed? ==>
      (DiversifyAdvice in ReviewOf(portfolio, market, sqrt).report.data.recommendations <==> |Dedup(Symbols(portfolio))| < 5)
  {
    var holdings := HoldingShares(portfolio);
    assert |holdings| == |Dedup(Symbols(portfolio))| by {
      assert |Keys(holdings)| == |holdings|;
    }
  }

  // ---------------------------------------------------------------------
  // Watchlist (`handle_watchlist`)

  predicate NoDuplicates(s: seq<string>) {
    forall i, j | 0 <= i < j < |s| :: s[i] != s[j]
  }

  /** Appends `symbol` unless it is already listed. */
  function AddToWatchlist(list: seq<string>, symbol: string): (r: seq<string>)
    ensures symbol in r
    ensures forall x :: x in r <==> x in list || x == symbol
    ensures NoDuplicates(list) ==> NoDuplicates(r)
    ensures symbol in list <==> r == list
  {
    if symbol in list then list else list + [symbol]
  }

  /** Adding the same symbol a second time changes nothing. */
  lemma AddTwiceSameAsOnce(list: seq<string>, symbol: string)
    ensures AddToWatchlist(AddToWatchlist(list, symbol), symbol) == AddToWatchlist(list, symbol)
  {
  }

  /** `symbol.replace("watch_", "")`. */
  function WatchedSymbol(value: string): string {
    ReplaceAll(value, "watch_", "")
  }

  /** A value without the prefix is watched as it is. */
  lemma WatchedSymbolPlain(value: string)
    requires !Contains(value, "watch_")
    ensures WatchedSymbol(value) == value
  {
    ReplaceAbsent(value, "watch_", "");
  }

  /** The prefix of a button value is dropped. */
  lemma WatchedSymbolPrefixed(symbol: string)
    requires !Contains(symbol, "watch_")
    ensures WatchedSymbol("watch_" + symbol) == symbol
  {
    var v := "watch_" + symbol;
    assert v[..6] == "watch_" && v[6..] == symbol;
    ReplaceAbsent(symbol, "watch_", "");
  }

  datatype WatchNotice = AddedToWatchlist(symbol: string) | AlreadyWatched(symbol: string) {
    function Text(): string {
      match this
      case AddedToWatchlist(s) => "👁️ " + s + " added to your watchlist!"
      case AlreadyWatched(s) => "👁️ " + s + " is already in your watchlist"
    }
  }

  // ---------------------------------------------------------------------
  // Button actions (`handle_action`)

  datatype Handler =
    | StockAnalysisFlow | PortfolioReviewFlow | RiskAssessmentFlow | MarketOverviewFlow
    | ExportFlow(exportType: string) | WatchlistFlow(symbol: string) | NoHandler

  /** The exact names first, then the "export_" prefix, then "watch_";
      export and watchlist handlers receive the action's value. */
  function ActionTarget(name: string, value: string): (h: Handler)
    ensures h == StockAnalysisFlow <==> name == "analyze_stock"
    ensures h == PortfolioReviewFlow <==> name == "review_portfolio"
    ensures h == RiskAssessmentFlow <==> name == "risk_assessment"
    ensures h == MarketOverviewFlow <==> name == "market_overview"
    ensures h.ExportFlow? <==>
      name !in {"analyze_stock", "review_portfolio", "risk_assessment", "market_overview"} && StartsWith(name, "export_")
    ensures h.WatchlistFlow? <==>
      name !in {"analyze_stock", "review_portfolio", "risk_assessment", "market_overview"} &&
      !StartsWith(name, "export_") && StartsWith(name, "watch_")
    ensures h.ExportFlow? ==> h.exportType == value
    ensures h.WatchlistFlow? ==> h.symbol == value
  {
    if name == "analyze_stock" then StockAnalysisFlow
    else if name == "review_portfolio" then PortfolioReviewFlow
    else if name == "risk_assessment" then RiskAssessmentFlow
    else if name == "market_overview" then MarketOverviewFlow
    else if StartsWith(name, "export_") then ExportFlow(value)
    else if StartsWith(name, "watch_") then WatchlistFlow(value)
    else NoHandler
  }

  // ---------------------------------------------------------------------
  // The application

  datatype SessionSettings = SessionSettings(
    initialized: bool, userId: string, portfolio: seq<Holding>, riskTolerance: string,
    investmentGoal: string, watchlist: Option<seq<string>>, ended: bool)

  class FinanceAdvisorApp {
    const master: MasterFinanceAgent
    const portfolioAgent: PortfolioAgent

    /** Whether `session_data` holds the entries `initialize_session`
        writes (it starts out as an empty dictionary). */
    var initialized: bool
    var userId: string
    var portfolio: seq<Holding>
    var riskTolerance: string
    var investmentGoal: string
    var conversationHistory: seq<string>
    /** `session_data["watchlist"]`, absent until the first watch action. */
    var watchlist: Option<seq<string>>
    /** Whether `end()` has stamped `ended_at`. */
    var ended: bool

    ghost predicate Valid()
      reads this, master, master.stockAgent, master.portfolioAgent, master.riskAgent, portfolioAgent
      reads master.stockAgent.agent, master.portfolioAgent.agent, master.riskAgent.agent, portfolioAgent.agent
    {
      master.Valid()
      && portfolioAgent.agent.context != master.stockAgent.agent.context
      && portfolioAgent.agent.context != master.portfolioAgent.agent.context
      && portfolioAgent.agent.context != master.riskAgent.agent.context
      && (watchlist.Some? ==> NoDuplicates(watchlist.value))
    }

    /** Every session entry but the conversation history. */
    function Settings(): SessionSettings
      reads this
    {
      SessionSettings(initialized, userId, portfolio, riskTolerance, investmentGoal, watchlist, ended)
    }

    constructor()
      ensures Valid()
      ensures !initialized && watchlist.None? && !ended
    {
      master := new MasterFinanceAgent();
      portfolioAgent := new PortfolioAgent();
      initialized := false;
      userId, portfolio, riskTolerance, investmentGoal, conversationHistory := "", [], "", "", [];
      watchlist := None;
      ended := false;
    }

    /** `initialize_session`: the dictionary is replaced by the defaults,
        which also drops any watchlist. */
    method InitializeSession(user: Option<string>)
      requires Valid()
      modifies this
      ensures Valid()
      ensures initialized && userId == user.GetOr("anonymous")
      ensures portfolio == [] && riskTolerance == "medium" && investmentGoal == "growth"
      ensures conversationHistory == [] && watchlist.None? && !ended
    {
      initialized := true;
      userId := user.GetOr("anonymous");
      portfolio := [];
      riskTolerance := "medium";
      investmentGoal := "growth";
      conversationHistory := [];
      watchlist := None;
      ended := false;
    }

    /** `handle_watchlist(symbol)`. */
    method HandleWatchlist(value: string) returns (notice: WatchNotice)
      requires Valid()
      modifies this
      ensures Valid()
      ensures watchlist == Some(AddToWatchlist(old(watchlist).GetOr([]), WatchedSymbol(value)))
      ensures notice == if WatchedSymbol(value) in old(watchlist).GetOr([])
                        then AlreadyWatched(WatchedSymbol(value)) else AddedToWatchlist(WatchedSymbol(value))
      ensures initialized == old(initialized) && userId == old(userId) && portfolio == old(portfolio)
      ensures riskTolerance == old(riskTolerance) && investmentGoal == old(investmentGoal)
      ensures conversationHistory == old(conversationHistory) && ended == old(ended)
    {
      var symbol := WatchedSymbol(value);
      if watchlist.None? {
        watchlist := Some([]);
      }
      var list := watchlist.value;
      if symbol !in list {
        watchlist := Some(list + [symbol]);
        notice := AddedToWatchlist(symbol);
      } else {
        notice := AlreadyWatched(symbol);
      }
    }

    /** `handle_action(action)`: only the watchlist handler changes the
        session; the others open dialogs or send exports. */
    method HandleAction(name: string, value: string) returns (handler: Handler, notice: Option<WatchNotice>)
      requires Valid()
      modifies this
      ensures Valid()
      ensures handler == ActionTarget(name, value)
      ensures notice.Some? <==> handler.WatchlistFlow?
      ensures handler.WatchlistFlow? ==>
        watchlist == Some(AddToWatchlist(old(watchlist).GetOr([]), WatchedSymbol(value)))
      ensures !handler.WatchlistFlow? ==> watchlist == old(watchlist)
      ensures initialized == old(initialized) && userId == old(userId) && portfolio == old(portfolio)
      ensures riskTolerance == old(riskTolerance) && investmentGoal == old(investmentGoal)
      ensures conversationHistory == old(conversationHistory) && ended == old(ended)
    {
      handler := ActionTarget(name, value);
      if handler.WatchlistFlow? {
        var n := HandleWatchlist(value);
        notice := Some(n);
      } else {
        notice := None;
      }
    }

    /** `process_portfolio_review` with the portfolio already parsed: the
        holdings are converted and handed to the portfolio agent. */
    method ProcessPortfolioReview(submitted: seq<Holding>, market: map<string, seq<real>>, sqrt: real -> real)
      returns (outcome: ReviewOutcome)
      requires Valid() && IsSqrt(sqrt) && PositivePrices(market)
      modifies portfolioAgent.agent.context
      ensures outcome == ReviewOf(submitted, market, sqrt)
      ensures submitted == [] ==> portfolioAgent.agent.context.stateHistory == old(portfolioAgent.agent.context.stateHistory)
      ensures submitted != [] ==> (portfolioAgent.agent.context.stateHistory ==
        old(portfolioAgent.agent.context.stateHistory) + [Running, if outcome.Reviewed? then Completed else Error])
      ensures submitted == [] ==> portfolioAgent.agent.context.agentState == old(portfolioAgent.agent.context.agentState)
      ensures submitted != [] ==> portfolioAgent.agent.context.agentState == if outcome.Reviewed? then Completed else Error
      ensures portfolioAgent.agent.context.conversationHistory == old(portfolioAgent.agent.context.conversationHistory)
      ensures portfolioAgent.agent.context.runState == old(portfolioAgent.agent.context.runState)
    {
      if submitted == [] {
        return MissingPortfolio;
      }
      var holdings := ConvertHoldings(submitted);
      var r := portfolioAgent.AnalyzePortfolio(holdings, market, sqrt);
      outcome := if r.Err? then ReviewFailed(r.error) else Reviewed(r.value);
    }

    /** `process_message(message)`. Before `initialize_session` the history
        is missing and the append raises `KeyError`, leaving every agent
        untouched; otherwise the message is added to the history, then routed
        by the master agent. */
    method ProcessMessage(message: string, market: map<string, seq<real>>, sqrt: real -> real)
      returns (r: Result<seq<Chunk>>)
      requires Valid() && IsSqrt(sqrt) && PositivePrices(market)
      modifies this, master.stockAgent.agent.context, master.portfolioAgent.agent.context, master.riskAgent.agent.context
      ensures Valid()
      ensures r.Err? <==> !old(initialized)
      ensures r.Err? ==> r.error == "'conversation_history'" && unchanged(this)
      ensures r.Err? ==> unchanged(master.stockAgent.agent.context, master.portfolioAgent.agent.context, master.riskAgent.agent.context)
      ensures r.Ok? ==> master.RoutedAs(message, market, sqrt)
      ensures r.Ok? ==> conversationHistory == old(conversationHistory) + [message]
      ensures r.Ok? ==> r.value == ChunksFor(RouteOf(message), message, market, sqrt)
      ensures r.Ok? ==> Settings() == old(Settings())
    {
      if !initialized {
        return Err("'conversation_history'");
      }
      conversationHistory := conversationHistory + [message];
      var chunks := master.RouteRequest(message, market, sqrt);
      r := Ok(chunks);
    }

    /** `end()`: stamps `ended_at`, initialised or not. */
    method End()
      requires Valid()
      modifies this
      ensures Valid() && ended
      ensures initialized == old(initialized) && userId == old(userId) && portfolio == old(portfolio)
      ensures riskTolerance == old(riskTolerance) && investmentGoal == old(investmentGoal)
      ensures conversationHistory == old(conversationHistory) && watchlist == old(watchlist)
    {
      ended := true;
    }
  }
}
