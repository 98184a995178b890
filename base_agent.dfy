/** The agent scaffolding of agents/base_agent.py: input and output
    guardrails, the price-change recommendation ladder, portfolio scoring, the
    run registry, the conversation context and the base agent's message
    pipeline. Market data, clocks and lifecycle callbacks come in as values. */
module BaseAgent {
  import opened Wrappers
  import opened Text
  import opened Numeric

  datatype AgentState = Idle | Running | Waiting | Completed | Error

  datatype RunState = Created | Queued | InProgress | RequiresAction | Done | Failed | Cancelled

  /** A guardrail's answer: whether the text passes, and why. */
  datatype Verdict = Verdict(valid: bool, message: string)

  const HarmfulPatterns: seq<string> := ["hack", "exploit", "malware", "virus"]
  const MaxInputLength := 5000
  const MaxOutputLength := 10000

  /** `Guardrails.validate_input`: blank input first, then length, then the
      harmful substrings of the lower-cased input. */
  function ValidateInput(userInput: string): (v: Verdict)
    ensures IsBlank(userInput) ==> v == Verdict(false, "Empty input not allowed")
    ensures !IsBlank(userInput) && |userInput| > MaxInputLength ==>
              v == Verdict(false, "Input too long (max 5000 characters)")
    ensures v.valid ==> v.message == "Input validated"
    ensures v.valid <==> !IsBlank(userInput) && |userInput| <= MaxInputLength
                         && !ContainsAny(Lower(userInput), HarmfulPatterns)
  {
    if IsBlank(userInput) then Verdict(false, "Empty input not allowed")
    else if |userInput| > MaxInputLength then Verdict(false, "Input too long (max 5000 characters)")
    else if ContainsAny(Lower(userInput), HarmfulPatterns) then Verdict(false, "Potentially harmful content detected")
    else Verdict(true, "Input validated")
  }

  /** Input passes exactly when it has a non-space character, is at most 5000
      characters long and no harmful word occurs at any position of its
      lower-cased form. */
  lemma ValidateInputIff(userInput: string)
    ensures ValidateInput(userInput).valid <==>
      (exists i | 0 <= i < |userInput| :: !IsSpace(userInput[i])) &&
      |userInput| <= MaxInputLength &&
      forall k, j | 0 <= k < |HarmfulPatterns| :: !OccursAt(Lower(userInput), HarmfulPatterns[k], j)
  {
    forall k | 0 <= k < |HarmfulPatterns| {
      ContainsIff(Lower(userInput), HarmfulPatterns[k]);
    }
  }

  /** `Guardrails.validate_output`. */
  function ValidateOutput(response: string): (v: Verdict)
    ensures v.valid <==> 0 < |response| <= MaxOutputLength
    ensures |response| == 0 ==> v.message == "Empty response"
    ensures |response| > MaxOutputLength ==> v.message == "Response too long"
  {
    if |response| == 0 then Verdict(false, "Empty response")
    else if |response| > MaxOutputLength then Verdict(false, "Response too long")
    else Verdict(true, "Output validated")
  }

  /** The five recommendations `get_stock_data` emits. */
  datatype Recommendation = StrongBuy | Buy | Hold | WeakSell | Sell {
    /** The label stored in the result. */
    function Label(): string {
      match this
      case StrongBuy => "STRONG_BUY"
      case Buy => "BUY"
      case Hold => "HOLD"
      case WeakSell => "WEAK_SELL"
      case Sell => "SELL"
    }

    /** Position from most bearish (0) to most bullish (4). */
    function Rank(): int {
      match this
      case Sell => 0
      case WeakSell => 1
      case Hold => 2
      case Buy => 3
      case StrongBuy => 4
    }
  }

  /** A recommendation and its confidence. */
  datatype Signal = Signal(recommendation: Recommendation, confidence: real)

  /** The ladder of `get_stock_data` on the percentage price change. */
  function RecommendFor(priceChange: real): (s: Signal)
    ensures 0.0 <= s.confidence <= 1.0
    ensures s.recommendation == StrongBuy <==> priceChange > 5.0
    ensures s.recommendation == Buy <==> 2.0 < priceChange <= 5.0
    ensures s.recommendation == Sell <==> priceChange < -5.0
    ensures s.recommendation == WeakSell <==> -5.0 <= priceChange < -2.0
    ensures s.recommendation == Hold <==> -2.0 <= priceChange <= 2.0
  {
    if priceChange > 5.0 then Signal(StrongBuy, 0.8)
    else if priceChange > 2.0 then Signal(Buy, 0.7)
    else if priceChange < -5.0 then Signal(Sell, 0.8)
    else if priceChange < -2.0 then Signal(WeakSell, 0.6)
    else Signal(Hold, 0.5)
  }

  /** A larger price change never gives a more bearish recommendation, and
      the two strong signals carry the highest confidence. */
  lemma RecommendationMonotone(a: real, b: real)
    requires a <= b
    ensures RecommendFor(a).recommendation.Rank() <= RecommendFor(b).recommendation.Rank()
    ensures RecommendFor(a).confidence == 0.8 <==> a > 5.0 || a < -5.0
  {
  }

  /** The validated result of `get_stock_data`. */
  datatype StockAnalysis = StockAnalysis(
    symbol: string, currentPrice: real, priceChange: real, recommendation: Recommendation, confidence: real)

  /** `get_stock_data(symbol)` over the closing prices of the fetched history
      (oldest first): the last close against the one before it (against
      itself when there is only one). No history raises; the structured
      output rejects an empty symbol or one over 10 characters and upper-cases
      it. */
  function GetStockData(symbol: string, closes: seq<real>): (r: Result<StockAnalysis>)
    requires forall i | 0 <= i < |closes| :: closes[i] > 0.0
    ensures r.Err? <==> |closes| == 0 || |symbol| == 0 || |symbol| > 10
  {
    if |closes| == 0 then Err("No data found for symbol " + symbol)
    else
      var current := closes[|closes| - 1];
      var previous := if |closes| > 1 then closes[|closes| - 2] else current;
      var change := ((current - previous) / previous) * 100.0;
      var signal := RecommendFor(change);
      if |symbol| == 0 || |symbol| > 10 then Err("Invalid stock symbol")
      else Ok(StockAnalysis(Upper(symbol), current, change, signal.recommendation, signal.confidence))
  }

  /** What `get_stock_data` promises: the missing-history error first, then
      the symbol check; on success the upper-cased symbol, the last close and
      the ladder's verdict on the change, which is 0 (HOLD) for a single
      close. */
  lemma GetStockDataContract(symbol: string, closes: seq<real>)
    requires forall i | 0 <= i < |closes| :: closes[i] > 0.0
    ensures var r := GetStockData(symbol, closes);
      (|closes| == 0 ==> r == Err("No data found for symbol " + symbol)) &&
      (|closes| > 0 && !(0 < |symbol| <= 10) ==> r == Err("Invalid stock symbol")) &&
      (r.Ok? <==> |closes| > 0 && 0 < |symbol| <= 10) &&
      (r.Ok? ==> r.value.symbol == Upper(symbol) && r.value.currentPrice == closes[|closes| - 1]) &&
      (r.Ok? ==> RecommendFor(r.value.priceChange) == Signal(r.value.recommendation, r.value.confidence)) &&
      (r.Ok? && |closes| == 1 ==> r.value.priceChange == 0.0 && r.value.recommendation == Hold)
  {
  }

  /** A rise of more than 5% over the previous close is a strong buy. */
  lemma StrongBuyOnRise(symbol: string, previous: real, current: real)
    requires 0 < |symbol| <= 10 && previous > 0.0 && current > previous * 1.05
    ensures GetStockData(symbol, [previous, current]).Ok?
    ensures GetStockData(symbol, [previous, current]).value.recommendation == StrongBuy
  {
    var change := ((current - previous) / previous) * 100.0;
    assert (current - previous) / previous > 0.05 by {
      assert current - previous > 0.05 * previous;
    }
  }

  /** The validated result of `analyze_portfolio`. */
  datatype PortfolioAnalysis = PortfolioAnalysis(
    totalValue: real, dailyChange: real, riskScore: real, diversificationScore: real,
    recommendations: seq<string>)

  const DiversifyAdvice := "Consider diversifying with more holdings"
  const VolatilityAdvice := "Portfolio has high volatility - consider defensive positions"
  const MomentumAdvice := "Portfolio showing negative momentum - review positions"

  /** A square root: non-negative, and squaring gives back its argument. */
  ghost predicate IsSqrt(sqrt: real -> real) {
    forall x :: 0.0 <= x ==> 0.0 <= sqrt(x) && sqrt(x) * sqrt(x) == x
  }

  /** `np.std(changes)`, 0 for fewer than two changes. */
  function Volatility(changes: seq<real>, sqrt: real -> real): (v: real)
    requires IsSqrt(sqrt)
    ensures 0.0 <= v
  {
    if |changes| > 1 then PopVarianceNonNegative(changes); sqrt(PopVariance(changes)) else 0.0
  }

  /** The scoring half of `analyze_portfolio`, given the total value, the
      holdings' price changes in order and the number of holdings. */
  function ScorePortfolio(totalValue: real, changes: seq<real>, holdings: nat, sqrt: real -> real): (a: PortfolioAnalysis)
    requires IsSqrt(sqrt)
    ensures a.totalValue == totalValue
    ensures a.dailyChange == if |changes| > 0 then Mean(changes) else 0.0
    ensures 0.0 <= a.riskScore <= 10.0
    ensures 0.0 <= a.diversificationScore <= 1.0
    ensures a.diversificationScore == 1.0 <==> holdings >= 10
    ensures DiversifyAdvice in a.recommendations <==> holdings < 5
    ensures VolatilityAdvice in a.recommendations <==> a.riskScore > 7.0
    ensures MomentumAdvice in a.recommendations <==> a.dailyChange < -2.0
    ensures |a.recommendations| <= 3
  {
    var avg := if |changes| > 0 then Mean(changes) else 0.0;
    var volatility := Volatility(changes, sqrt);
    var risk := MinR(10.0, volatility / 2.0);
    var diversification := MinR(1.0, holdings as real / 10.0);
    var recs := (if holdings < 5 then [DiversifyAdvice] else [])
              + (if risk > 7.0 then [VolatilityAdvice] else [])
              + (if avg < -2.0 then [MomentumAdvice] else []);
    PortfolioAnalysis(totalValue, avg, risk, diversification, recs)
  }

  /** The volatility advice appears exactly when the population variance of
      the price changes exceeds 196 (a standard deviation above 14 points),
      and never with fewer than two holdings. */
  lemma VolatilityAdviceIff(totalValue: real, changes: seq<real>, holdings: nat, sqrt: real -> real)
    requires IsSqrt(sqrt)
    ensures VolatilityAdvice in ScorePortfolio(totalValue, changes, holdings, sqrt).recommendations
        <==> |changes| > 1 && PopVariance(changes) > 196.0
  {
    if |changes| > 1 {
      var v := PopVariance(changes);
      PopVarianceNonNegative(changes);
      var s := sqrt(v);
      assert s * s == v && s >= 0.0;
      if s > 14.0 {
        assert s * s > 14.0 * 14.0;
      } else {
        assert s * s <= 14.0 * s <= 14.0 * 14.0;
      }
    }
  }

  /** Every supplied closing price is positive. */
  ghost predicate PositivePrices(market: map<string, seq<real>>) {
    forall s | s in market :: forall i | 0 <= i < |market[s]| :: market[s][i] > 0.0
  }

  /** `get_stock_data(symbol)` against the supplied price histories. */
  function Lookup(symbol: string, market: map<string, seq<real>>): Result<StockAnalysis>
    requires PositivePrices(market)
  {
    GetStockData(symbol, if symbol in market then market[symbol] else [])
  }

  /** The lookup of every holding, in order. */
  function Quotes(holdings: seq<(string, real)>, market: map<string, seq<real>>): (qs: seq<Result<StockAnalysis>>)
    requires PositivePrices(market)
    ensures |qs| == |holdings|
  {
    seq(|holdings|, j requires 0 <= j < |holdings| => Lookup(holdings[j].0, market))
  }

  lemma QuoteAt(holdings: seq<(string, real)>, market: map<string, seq<real>>, i: nat)
    requires PositivePrices(market) && i < |holdings|
    ensures Quotes(holdings, market)[i] == Lookup(holdings[i].0, market)
  {
  }

  /** The error of the first failed lookup, if any. */
  function FirstError(quotes: seq<Result<StockAnalysis>>): (e: Option<string>)
    ensures e.None? <==> forall j | 0 <= j < |quotes| :: quotes[j].Ok?
    ensures e.Some? ==> exists i | 0 <= i < |quotes| ::
              quotes[i] == Err(e.value) && forall j | 0 <= j < i :: quotes[j].Ok?
  {
    if quotes == [] then None
    else if quotes[0].Err? then Some(quotes[0].error)
    else
      var rest := FirstError(quotes[1..]);
      assert forall j | 1 <= j < |quotes| :: quotes[j] == quotes[1..][j - 1];
      if rest.Some? then
        ghost var i :| 0 <= i < |quotes| - 1 && quotes[1..][i] == Err(rest.value) &&
          forall j | 0 <= j < i :: quotes[1..][j].Ok?;
        assert quotes[i + 1] == Err(rest.value);
        rest
      else rest
  }

  /** The first failed lookup decides the error. */
  lemma {:induction false} FirstErrorAt(quotes: seq<Result<StockAnalysis>>, i: nat)
    requires i < |quotes| && quotes[i].Err?
    requires forall j | 0 <= j < i :: quotes[j].Ok?
    ensures FirstError(quotes) == Some(quotes[i].error)
  {
    if i > 0 {
      assert forall j | 0 <= j < i - 1 :: quotes[1..][j] == quotes[j + 1];
      FirstErrorAt(quotes[1..], i - 1);
    }
  }

  /** The value of a position: its current price times the shares held. */
  function Worth(quote: StockAnalysis, shares: real): real {
    quote.currentPrice * shares
  }

  /** The total value of the first `n` holdings (a failed lookup counts
      nothing; the analysis never gets that far). */
  function PositionsValue(holdings: seq<(string, real)>, quotes: seq<Result<StockAnalysis>>, n: nat): real
    requires |quotes| == |holdings| && n <= |holdings|
  {
    if n == 0 then 0.0
    else PositionsValue(holdings, quotes, n - 1) + (if quotes[n - 1].Ok? then Worth(quotes[n - 1].value, holdings[n - 1].1) else 0.0)
  }

  /** The price change of every holding, in order (0 for a failed lookup). */
  function Changes(quotes: seq<Result<StockAnalysis>>): (cs: seq<real>)
    ensures |cs| == |quotes|
  {
    seq(|quotes|, j requires 0 <= j < |quotes| => if quotes[j].Ok? then quotes[j].value.priceChange else 0.0)
  }

  lemma ChangesStep(quotes: seq<Result<StockAnalysis>>, i: nat)
    requires i < |quotes| && quotes[i].Ok?
    ensures Changes(quotes)[..i + 1] == Changes(quotes)[..i] + [quotes[i].value.priceChange]
  {
  }

  /** `analyze_portfolio(holdings)` with `market` standing in for the price
      histories the tool fetches (a symbol with no entry has no history). The
      first holding whose lookup fails aborts the whole analysis with that
      error. */
  method AnalyzePortfolio(holdings: seq<(string, real)>, market: map<string, seq<real>>, sqrt: real -> real)
    returns (r: Result<PortfolioAnalysis>)
    requires IsSqrt(sqrt)
    requires PositivePrices(market)
    ensures r == AnalysisOf(holdings, Quotes(holdings, market), sqrt)
  {
    var failure, totalValue, dailyChanges := FetchPositions(holdings, market);
    if failure.Some? {
      return Err(failure.value);
    }
    r := Ok(ScorePortfolio(totalValue, dailyChanges, |holdings|, sqrt));
  }

  /** The outcome of `analyze_portfolio` given each holding's lookup: the
      first lookup error, or the score of the collected values and changes. */
  function AnalysisOf(holdings: seq<(string, real)>, quotes: seq<Result<StockAnalysis>>, sqrt: real -> real)
    : (r: Result<PortfolioAnalysis>)
    requires IsSqrt(sqrt) && |quotes| == |holdings|
    ensures r.Err? <==> exists i | 0 <= i < |quotes| :: quotes[i].Err?
    ensures r.Err? ==> exists i | 0 <= i < |quotes| ::
              quotes[i] == Err(r.error) && forall j | 0 <= j < i :: quotes[j].Ok?
    ensures r.Ok? ==> |r.value.recommendations| <= 3 && 0.0 <= r.value.riskScore <= 10.0
  {
    var e := FirstError(quotes);
    if e.Some? then Err(e.value)
    else Ok(ScorePortfolio(PositionsValue(holdings, quotes, |holdings|), Changes(quotes), |holdings|, sqrt))
  }

  /** The loop of `analyze_portfolio`: each holding's price times its shares
      is added to the total and its price change collected, stopping at the
      first failed lookup. */
  method FetchPositions(holdings: seq<(string, real)>, market: map<string, seq<real>>)
    returns (failure: Option<string>, totalValue: real, dailyChanges: seq<real>)
    requires PositivePrices(market)
    ensures failure == FirstError(Quotes(holdings, market))
    ensures failure.None? ==>
      totalValue == PositionsValue(holdings, Quotes(holdings, market), |holdings|) &&
      dailyChanges == Changes(Quotes(holdings, market))
  {
    ghost var quotes := Quotes(holdings, market);
    totalValue := 0.0;
    dailyChanges := [];
    var i := 0;
    while i < |holdings|
      invariant 0 <= i <= |holdings|
      invariant forall j | 0 <= j < i :: quotes[j].Ok?
      invariant totalValue == PositionsValue(holdings, quotes, i)
      invariant dailyChanges == Changes(quotes)[..i]
    {
      var stockData := Lookup(holdings[i].0, market);
      QuoteAt(holdings, market, i);
      if stockData.Err? {
        FirstErrorAt(quotes, i);
        return Some(stockData.error), totalValue, dailyChanges;
      }
      ChangesStep(quotes, i);
      totalValue := totalValue + Worth(stockData.value, holdings[i].1);
      dailyChanges := dailyChanges + [stockData.value.priceChange];
      i := i + 1;
    }
    assert Changes(quotes)[..i] == Changes(quotes);
    failure := None;
  }

  /** Replacing a run twice leaves only the second replacement. */
  lemma ReplaceTwice(runs: map<string, Run>, id: string, first: Run, second: Run)
    ensures runs[id := first][id := second] == runs[id := second]
  {
  }

  /** One step recorded in a run. */
  datatype Step = Step(stepType: string, content: string, metadata: map<string, string>)

  /** A run record (its timestamps are not modelled). */
  datatype Run = Run(id: string, agentId: string, state: RunState, steps: seq<Step>, metadata: map<string, string>)

  /** `RunManager`: the runs by id. The ghost `trace` lists every state
      assignment in order, so the lifecycle of a run can be read off it. */
  class RunManager {
    var runs: map<string, Run>
    ghost var trace: seq<(string, RunState)>

    /** Every run is stored under its own id. */
    ghost predicate Valid()
      reads this
    {
      forall id | id in runs :: runs[id].id == id
    }

    constructor()
      ensures runs == map[] && trace == [] && Valid()
    {
      runs := map[];
      trace := [];
    }

    /** `create_run(run_id, agent_id)`: a fresh record in state CREATED,
        replacing any earlier run with the same id. */
    method CreateRun(runId: string, agentId: string) returns (run: Run)
      modifies this
      requires Valid()
      ensures Valid()
      ensures run == Run(runId, agentId, Created, [], map[])
      ensures runs == old(runs)[runId := run]
      ensures trace == old(trace) + [(runId, Created)]
    {
      run := Run(runId, agentId, Created, [], map[]);
      runs := runs[runId := run];
      trace := trace + [(runId, Created)];
    }

    /** `update_run_state(run_id, state, metadata)`: nothing happens for an
        unknown id; otherwise the state is replaced and the metadata merged
        in, new keys overriding old ones. */
    method UpdateRunState(runId: string, state: RunState, metadata: map<string, string>)
      modifies this
      requires Valid()
      ensures Valid()
      ensures runId !in old(runs) ==> runs == old(runs) && trace == old(trace)
      ensures runId in old(runs) ==>
        runs == old(runs)[runId := old(runs)[runId].(state := state, metadata := old(runs)[runId].metadata + metadata)] &&
        trace == old(trace) + [(runId, state)]
    {
      if runId in runs {
        var run := runs[runId];
        runs := runs[runId := run.(state := state, metadata := run.metadata + metadata)];
        trace := trace + [(runId, state)];
      }
    }

    /** `add_run_step(run_id, step_type, content, metadata)`: nothing happens
        for an unknown id; otherwise exactly one step is appended to that
        run. */
    method AddRunStep(runId: string, stepType: string, content: string, metadata: map<string, string>)
      modifies this
      requires Valid()
      ensures Valid()
      ensures trace == old(trace)
      ensures runId !in old(runs) ==> runs == old(runs)
      ensures runId in old(runs) ==>
        runs == old(runs)[runId := old(runs)[runId].(steps := old(runs)[runId].steps + [Step(stepType, content, metadata)])]
    {
      if runId in runs {
        var run := runs[runId];
        runs := runs[runId := run.(steps := run.steps + [Step(stepType, content, metadata)])];
      }
    }
  }

  /** One conversation entry; the timestamp is supplied by the caller. */
  datatype Message = Message(role: string, content: string, timestamp: string, metadata: map<string, string>)

  /** The contents of the last five messages, each cut to 100 characters, as
      `get_context_summary` lists them. */
  function RecentSnippets(history: seq<Message>): (r: seq<string>)
    ensures |r| == if |history| < 5 then |history| else 5
    ensures forall i | 0 <= i < |r| ::
      r[i] == Take(history[|history| - |r| + i].content, 100) && |r[i]| <= 100
  {
    var recent := if |history| < 5 then history else history[|history| - 5..];
    seq(|recent|, i requires 0 <= i < |recent| => Take(recent[i].content, 100))
  }

  /** After a message is added, the summary ends with its (cut) content and
      still lists at most five entries. */
  lemma SnippetsAfterAdd(history: seq<Message>, m: Message)
    ensures var r := RecentSnippets(history + [m]);
      0 < |r| <= 5 && r[|r| - 1] == Take(m.content, 100)
  {
  }

  /** `AgentContext`: the conversation so far and the agent's and run's
      states. The ghost `stateHistory` records every assignment to the agent
      state. */
  class AgentContext {
    var conversationHistory: seq<Message>
    var agentState: AgentState
    var runState: RunState
    ghost var stateHistory: seq<AgentState>

    constructor()
      ensures conversationHistory == [] && agentState == Idle && runState == Created
      ensures stateHistory == []
    {
      conversationHistory := [];
      agentState := Idle;
      runState := Created;
      stateHistory := [];
    }

    /** `add_message(role, content, metadata)`: exactly one entry appended. */
    method AddMessage(role: string, content: string, metadata: map<string, string>, timestamp: string)
      modifies this
      ensures conversationHistory == old(conversationHistory) + [Message(role, content, timestamp, metadata)]
      ensures agentState == old(agentState) && runState == old(runState) && stateHistory == old(stateHistory)
    {
      conversationHistory := conversationHistory + [Message(role, content, timestamp, metadata)];
    }

    /** Assigns `agent_state`, recording the assignment. */
    method SetAgentState(state: AgentState)
      modifies this
      ensures agentState == state
      ensures stateHistory == old(stateHistory) + [state]
      ensures conversationHistory == old(conversationHistory) && runState == old(runState)
    {
      agentState := state;
      stateHistory := stateHistory + [state];
    }

    /** The entries `get_context_summary` shows. */
    function ContextSummary(): seq<string>
      reads this
    {
      RecentSnippets(conversationHistory)
    }
  }

  const LifecycleEvents: seq<string> := ["on_start", "on_message", "on_tool_call", "on_error", "on_complete"]

  /** What the streaming step yields, in order. */
  const ResponseParts: seq<string> := [
    "Processing your request...", "Analyzing financial data...",
    "Generating insights...", "Finalizing response..."]

  /** An exception raised by the streaming step after `emitted` chunks. */
  datatype Fault = Fault(emitted: nat, error: string)

  /** The chunks the streaming step yields: each part followed by a newline. */
  function StreamedParts(n: nat): (chunks: seq<string>)
    ensures |chunks| == if n < |ResponseParts| then n else |ResponseParts|
    ensures forall i | 0 <= i < |chunks| :: chunks[i] == ResponseParts[i] + "\n"
  {
    var k := if n < |ResponseParts| then n else |ResponseParts|;
    seq(k, i requires 0 <= i < k => ResponseParts[i] + "\n")
  }

  /** The run id `process_message` uses: the given one, or "run_" and the
      current time as `%Y%m%d_%H%M%S` when none or an empty one is given. */
  function RunIdFor(runId: Option<string>, clockStamp: string): (id: string)
    ensures runId.Some? && runId.value != "" ==> id == runId.value
    ensures runId.None? || runId.value == "" ==> id == "run_" + clockStamp
  {
    if runId.None? || runId.value == "" then "run_" + clockStamp else runId.value
  }

  /** `BaseAgent`: identity, context, run registry and lifecycle hooks.
      Callbacks are recorded by name; calling them is not modelled. */
  class Agent {
    const agentId: string
    const name: string
    const description: string
    const context: AgentContext
    const runManager: RunManager
    var hooks: map<string, seq<string>>

    ghost predicate Valid()
      reads this, runManager
    {
      hooks.Keys == (set e | e in LifecycleEvents) && runManager.Valid()
    }

    constructor(agentId: string, name: string, description: string)
      ensures this.agentId == agentId && this.name == name && this.description == description
      ensures fresh(context) && fresh(runManager)
      ensures context.conversationHistory == [] && context.agentState == Idle && context.runState == Created
      ensures context.stateHistory == []
      ensures runManager.runs == map[] && runManager.trace == []
      ensures hooks == map e | e in LifecycleEvents :: []
      ensures Valid()
    {
      this.agentId := agentId;
      this.name := name;
      this.description := description;
      context := new AgentContext();
      runManager := new RunManager();
      hooks := map e | e in LifecycleEvents :: [];
    }

    /** `add_lifecycle_hook(event, callback)`: appended to a known event's
        list; an unknown event is ignored. */
    method AddLifecycleHook(event: string, callback: string)
      modifies this
      requires Valid()
      ensures Valid()
      ensures event in old(hooks) ==> hooks == old(hooks)[event := old(hooks)[event] + [callback]]
      ensures event !in old(hooks) ==> hooks == old(hooks)
    {
      if event in hooks {
        hooks := hooks[event := hooks[event] + [callback]];
      }
    }

    /** `process_message(message, run_id)`, as the chunks it yields. The
        context entry is stamped with `timestamp`; `fault` is an exception
        raised by the streaming step, if any. */
    method ProcessMessage(message: string, runId: Option<string>, clockStamp: string, timestamp: string,
                          fault: Option<Fault>)
      returns (chunks: seq<string>)
      modifies context, runManager
      requires Valid()
      ensures Valid()
      ensures RunIdFor(runId, clockStamp) in runManager.runs
      ensures runManager.runs[RunIdFor(runId, clockStamp)].agentId == agentId
      ensures runManager.runs[RunIdFor(runId, clockStamp)].steps == []
      ensures runManager.runs == old(runManager.runs)[RunIdFor(runId, clockStamp) := runManager.runs[RunIdFor(runId, clockStamp)]]
      ensures fault.None? ==> runManager.runs[RunIdFor(runId, clockStamp)].metadata == map[]
      ensures context.agentState == old(context.agentState) && context.runState == old(context.runState)
      ensures context.stateHistory == old(context.stateHistory)
      ensures !ValidateInput(message).valid ==>
        chunks == ["⚠️ Input validation failed: " + ValidateInput(message).message] &&
        runManager.runs[RunIdFor(runId, clockStamp)].state == InProgress &&
        runManager.trace == old(runManager.trace) + [(RunIdFor(runId, clockStamp), Created)] + [(RunIdFor(runId, clockStamp), InProgress)] &&
        context.conversationHistory == old(context.conversationHistory)
      ensures ValidateInput(message).valid ==>
        context.conversationHistory == old(context.conversationHistory) + [Message("user", message, timestamp, map[])]
      ensures ValidateInput(message).valid && fault.None? ==>
        chunks == StreamedParts(|ResponseParts|) &&
        runManager.runs[RunIdFor(runId, clockStamp)].state == Done &&
        runManager.trace == old(runManager.trace) + [(RunIdFor(runId, clockStamp), Created)] + [(RunIdFor(runId, clockStamp), InProgress)]
          + [(RunIdFor(runId, clockStamp), Done)]
      ensures ValidateInput(message).valid && fault.Some? ==>
        chunks == StreamedParts(fault.value.emitted) + ["❌ Error: " + fault.value.error] &&
        runManager.runs[RunIdFor(runId, clockStamp)].state == Failed &&
        runManager.runs[RunIdFor(runId, clockStamp)].metadata == map["error" := fault.value.error] &&
        runManager.trace == old(runManager.trace) + [(RunIdFor(runId, clockStamp), Created)] + [(RunIdFor(runId, clockStamp), InProgress)]
          + [(RunIdFor(runId, clockStamp), Failed)]
    {
      var id := RunIdFor(runId, clockStamp);
      ghost var before := runManager.runs;
      var created := runManager.CreateRun(id, agentId);
      runManager.UpdateRunState(id, InProgress, map[]);
      ReplaceTwice(before, id, created, runManager.runs[id]);
      var verdict := ValidateInput(message);
      if !verdict.valid {
        chunks := ["⚠️ Input validation failed: " + verdict.message];
        return;
      }
      context.AddMessage("user", message, map[], timestamp);
      ghost var started := runManager.runs[id];
      if fault.Some? {
        chunks := StreamedParts(fault.value.emitted);
        runManager.UpdateRunState(id, Failed, map["error" := fault.value.error]);
        ReplaceTwice(before, id, started, runManager.runs[id]);
        chunks := chunks + ["❌ Error: " + fault.value.error];
        return;
      }
      chunks := StreamedParts(|ResponseParts|);
      runManager.UpdateRunState(id, Done, map[]);
      ReplaceTwice(before, id, started, runManager.runs[id]);
    }
  }
}
