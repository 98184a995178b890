# AI finance advisor: a Dafny model of its deterministic core

The application is a chat finance advisor. A master agent reads a user message and routes it by keyword to one of three specialists:

- a stock analyst, which turns the last two closing prices into a five-step recommendation;
- a portfolio manager, which prices the holdings, scores their risk and diversification and renders its advice;
- a risk manager, which grades a risk score as LOW, MEDIUM or HIGH.

Around the agents sit:

- input and output guardrails;
- a run registry with a small state machine;
- the conversation context;
- a runner that records every execution under its own id;
- historical risk statistics: VaR, CVaR, maximum drawdown, compounded returns, sector totals and rebalancing rows;
- rule-based advice: an age- and horizon-based allocation, market sentiment and personal-finance rules;
- the deterministic rules of the "advanced" layer: keyword sentiment, prediction ladders, news impact and the optimiser's fallback;
- session bookkeeping in the chat application: the watchlist, allocation bars, holdings conversion, action dispatch and the message history.

How the model represents the source:

- Python floats are Dafny `real`, so the contracts state the exact-arithmetic behaviour the formulas promise.
- A NaN result (the mean of an empty series, or `.min()` of an empty one) is `None`.
- An exception is `Result.Err` carrying its message.
- A Python `dict` is an association list in insertion order (`OrderedDict.Dict`).
- An async generator is the sequence of chunks it yields.

Values that come from outside the program are parameters:

- **Price histories:** a `map` from symbol to closing prices. A missing symbol has an empty history, and prices are required to be positive.
- **Square root:** numpy's square root is a function `sqrt` that must satisfy `IsSqrt`.
- **Clock stamps:** passed in as strings.
- **Exceptions raised mid-stream:** described by a `Fault`.

Objects whose fields the source reassigns are classes:

- the run registry;
- the agent context, with `agent_state` and the history;
- the agents, with their hook lists;
- the runner, with `active_runs`;
- the application's session data.

Their methods are proved against the functions that specify them.

Layout, one module per file:

- `wrappers.dfy`: `Option`, `Result`.
- `text.dfy`: whitespace, ASCII case, substring search, `split`, `replace`, `str(int)`.
- `numeric.dfy`: sums, products, mean, variance, min, max, sorting, `int()` truncation.
- `ordered_dict.dfy`: `dict` in insertion order.
- `drawdown.dfy`: the compounded curve and its running maximum.
- One module per source file: `base_agent.dfy`, `specialized_agents.dfy`, `risk_manager.dfy`, `portfolio_analyzer.dfy`, `ai_advisor.dfy`, `advanced_agent_system.dfy`, `main_app.dfy`.

## Model

| member | source | states |
|---|---|---|
| BaseAgent.ValidateInput | agents/base_agent.py:122-135 | Blank input is refused first as "Empty input not allowed". Non-blank input over 5000 characters is refused as too long, so exactly 5000 passes. Input is accepted, with "Input validated", iff it is non-blank, at most 5000 long and its lower-cased form contains none of hack/exploit/malware/virus. |
| BaseAgent.ValidateInputIff | agents/base_agent.py:124-135 | Acceptance restated without the search function: some non-space character, length at most 5000, and no harmful word occurring at any position of the lower-cased input. |
| BaseAgent.ValidateOutput | agents/base_agent.py:138-146 | Accepted iff the response is non-empty and at most 10000 characters. Otherwise the message is "Empty response" or "Response too long" as appropriate. |
| BaseAgent.RecommendFor | agents/base_agent.py:166-180 | The five rungs as iffs on the price change: STRONG_BUY above 5, BUY in (2, 5], SELL below -5, WEAK_SELL in [-5, -2), HOLD in [-2, 2]. Confidence is always in [0, 1]. |
| BaseAgent.RecommendationMonotone | agents/base_agent.py:166-180 | A larger price change never gives a more bearish recommendation. Confidence is 0.8 exactly for the two strong signals. |
| BaseAgent.GetStockDataContract | agents/base_agent.py:69-80 | No history raises "No data found for symbol …". A bad symbol with some history gives "Invalid stock symbol". Otherwise the result is Ok iff the symbol has 1 to 10 characters (lines 76-80). On success the symbol is upper-cased, the price is the last close and the recommendation is the ladder's verdict on the change. A single close gives change 0 and HOLD. |
| BaseAgent.GetStockData | agents/base_agent.py:151-180 | Fails iff there is no history or the symbol is empty or over 10 characters. The messages are stated by GetStockDataContract. |
| BaseAgent.StrongBuyOnRise | agents/base_agent.py:161-168 | A last close more than 5% above the previous one is a STRONG_BUY. |
| BaseAgent.Volatility | agents/base_agent.py:207 | `np.std` of the changes, 0 for fewer than two, is never negative. |
| BaseAgent.ScorePortfolio | agents/base_agent.py:206-221 | Daily change is the mean of the changes (0 when there are none). Risk score is in [0, 10] and diversification in [0, 1], which is 1 iff there are at least 10 holdings. The diversify advice appears iff there are fewer than 5 holdings, the volatility advice iff risk > 7, and the momentum advice iff the mean change < -2. At most three recommendations. |
| BaseAgent.VolatilityAdviceIff | agents/base_agent.py:207-219 | The volatility advice appears iff there are at least two changes and their population variance exceeds 196. |
| BaseAgent.Quotes | agents/base_agent.py:200-201 | One lookup per holding, in order. |
| BaseAgent.QuoteAt | agents/base_agent.py:201 | The i-th lookup is the tool's answer for the i-th symbol. |
| BaseAgent.FirstError | agents/base_agent.py:200-201 | None iff every lookup succeeded. Otherwise it is the error of a failed lookup preceded only by successes. |
| BaseAgent.FirstErrorAt | agents/base_agent.py:200-201 | The first failed lookup is the one whose error is raised. |
| BaseAgent.Changes | agents/base_agent.py:204 | One price change per holding. |
| BaseAgent.ChangesStep | agents/base_agent.py:204 | Appending one change extends the collected prefix by exactly that change. |
| BaseAgent.AnalysisOf | agents/base_agent.py:194-232 | An error iff some lookup fails, and then it is the first failure's error. Success keeps at most three recommendations and a risk score in [0, 10]. |
| BaseAgent.FetchPositions | agents/base_agent.py:197-204 | The loop stops with the first failed lookup's error. Otherwise the total is the sum of price times shares and the changes are collected in order. |
| BaseAgent.AnalyzePortfolio | agents/base_agent.py:194-232 | Equals the analysis of the holdings' lookups: the first error, or the score of the collected values and changes. |
| BaseAgent.RunManager.constructor | agents/base_agent.py:236-237 | No runs. |
| BaseAgent.RunManager.CreateRun | agents/base_agent.py:239-251 | Stores a run in state CREATED with no steps under the id, replacing any run with that id and leaving the others. Returns that run. |
| BaseAgent.RunManager.UpdateRunState | agents/base_agent.py:253-260 | An unknown id changes nothing. A known one gets the new state and the metadata merged in, new keys winning. The transition is appended to the trace. |
| BaseAgent.RunManager.AddRunStep | agents/base_agent.py:262-272 | An unknown id changes nothing. A known one gets exactly one step appended at the end of its steps. |
| BaseAgent.RecentSnippets | agents/base_agent.py:114-117 | The last min(5, n) messages' contents, each cut to 100 characters, in order. |
| BaseAgent.SnippetsAfterAdd | agents/base_agent.py:106-117 | After a message is added the summary ends with its cut content and lists one to five entries. |
| BaseAgent.AgentContext.constructor | agents/base_agent.py:291-297 | Empty history, state IDLE, run state CREATED. |
| BaseAgent.AgentContext.AddMessage | agents/base_agent.py:106-112 | Exactly one entry is appended and nothing else changes. |
| BaseAgent.AgentContext.SetAgentState | agents/specialized_agents.py:27 | `agent_state` takes the new value, the assignment is recorded, and the history is unchanged. |
| BaseAgent.StreamedParts | agents/base_agent.py:362-374 | The first n (at most four) response parts, each followed by a newline. |
| BaseAgent.RunIdFor | agents/base_agent.py:332-334 | A given non-empty id is kept. Otherwise the id is "run_" plus the clock stamp. |
| BaseAgent.Agent.constructor | agents/base_agent.py:276-311 | Identity fields as given, a fresh empty context and run registry, and an empty hook list for each of the five lifecycle events. |
| BaseAgent.Agent.AddLifecycleHook | agents/base_agent.py:313-316 | A known event gets the callback appended. An unknown event is ignored. |
| BaseAgent.Agent.ProcessMessage | agents/base_agent.py:326-360 | The run is created with the agent's id and moved to IN_PROGRESS. A guardrail rejection yields only the warning, leaves the run IN_PROGRESS and adds nothing to the context. Otherwise the user message is added, the four parts are streamed and the run ends COMPLETED. A fault yields the parts so far and the error line, and ends the run FAILED with the error in its metadata. The new run has no steps, every other run is kept as it was and no other id is added, and the context's agent state, run state and state record are unchanged. |
| SpecializedAgents.CommentaryFollowsRecommendation | agents/specialized_agents.py:44-53 | The commentary's thresholds are the recommendation ladder's, so the sentence matches the recommendation. |
| SpecializedAgents.StockReportFor | agents/specialized_agents.py:24-69 | Fails iff the tool fails, with its error. On success it carries the tool's data and the commentary for its recommendation. |
| SpecializedAgents.StockAnalysisAgent.constructor | agents/specialized_agents.py:16-22 | The agent "stock_analyst" with an idle, empty context. |
| SpecializedAgents.StockAnalysisAgent.AnalyzeStock | agents/specialized_agents.py:24-68 | Result as StockReportFor. The state passes RUNNING, then COMPLETED on success or ERROR on failure. The history is untouched. |
| SpecializedAgents.BulletsAreLines | agents/specialized_agents.py:99-100 | The bullets are the concatenation of one "• rec\n" line per recommendation, in order. |
| SpecializedAgents.BulletsEndInNewline | agents/specialized_agents.py:100 | A non-empty bullet list ends with a newline. |
| SpecializedAgents.WellBalancedIffNone | agents/specialized_agents.py:99-103 | The well-balanced line is the whole section iff there are no recommendations. |
| SpecializedAgents.RenderRecommendations | agents/specialized_agents.py:99-103 | The loop builds the rendered section. The well-balanced line appears iff the list is empty. |
| SpecializedAgents.PortfolioReportFor | agents/specialized_agents.py:80-118 | Fails iff some holding's lookup fails. On success it carries the tool's analysis, and the text is the well-balanced line iff it has no recommendations. |
| SpecializedAgents.PortfolioAgent.constructor | agents/specialized_agents.py:72-78 | The agent "portfolio_manager" with an idle, empty context. |
| SpecializedAgents.PortfolioAgent.AnalyzePortfolio | agents/specialized_agents.py:80-118 | Result as PortfolioReportFor. The state passes RUNNING, then COMPLETED or ERROR. |
| SpecializedAgents.LevelOf | agents/specialized_agents.py:141 | HIGH iff score > 7, MEDIUM iff 4 < score ≤ 7, LOW iff score ≤ 4. |
| SpecializedAgents.LevelMonotone | agents/specialized_agents.py:141 | A higher score never gives a lower level. |
| SpecializedAgents.RiskFactors | agents/specialized_agents.py:148-159 | The two lines of the score's level come first. The insufficient-diversification line is added iff diversification < 0.5. |
| SpecializedAgents.RiskReportFor | agents/specialized_agents.py:130-169 | The score defaults to 5 and diversification to 0.5. The level follows the score, the two level lines come first, and the diversification warning appears iff diversification < 0.5. |
| SpecializedAgents.DefaultsAreMedium | agents/specialized_agents.py:135-159 | With no data the report is MEDIUM and has no diversification warning. |
| SpecializedAgents.RiskAgent.constructor | agents/specialized_agents.py:122-128 | The agent "risk_manager" with an idle, empty context. |
| SpecializedAgents.RiskAgent.AssessRisk | agents/specialized_agents.py:130-169 | Result as RiskReportFor. The state passes RUNNING, then COMPLETED. |
| SpecializedAgents.RoutePriority | agents/specialized_agents.py:199-248 | Exactly one branch is taken: stock keywords, else portfolio keywords, else risk keywords, else the help text. Each is an iff on substring tests of the lower-cased message. |
| SpecializedAgents.RouteOf | agents/specialized_agents.py:199-248 | The branch `route_request` takes. Its contract is stated by RoutePriority and RouteIgnoresCase. |
| SpecializedAgents.RouteIgnoresCase | agents/specialized_agents.py:199-203 | Upper- or lower-casing the message does not change the route. |
| SpecializedAgents.HelpWithoutKeywordLetters | agents/specialized_agents.py:203-248 | A message without the letters o, r, s and t gets the help text. |
| SpecializedAgents.AnalyzeSymbolGetsHelp | agents/specialized_agents.py:248-265 | The advertised command "analyze AAPL" contains no routing keyword and is answered with the help text. |
| SpecializedAgents.TickerIndex | agents/specialized_agents.py:209-212 | The position of the first word of at most five letters, with no such word before it. None iff there is none. |
| SpecializedAgents.TickerIndexAt | agents/specialized_agents.py:209-212 | A ticker-like word with none before it is the one found. |
| SpecializedAgents.FindTicker | agents/specialized_agents.py:208-212 | The loop with `break` returns the first ticker-like word. |
| SpecializedAgents.ExtractSymbol | agents/specialized_agents.py:207-212 | The symbol is the first ticker-like word of the upper-cased message's whitespace split. |
| SpecializedAgents.ExtractedSymbolShape | agents/specialized_agents.py:207-212 | An extracted symbol is one to five upper-case ASCII letters and upper-casing leaves it unchanged. |
| SpecializedAgents.ExtractedSymbolAccepted | agents/specialized_agents.py:214-215 | For an extracted symbol the analysis fails only when there is no price history, and reports the symbol unchanged. |
| SpecializedAgents.DemoHandoffWarns | agents/specialized_agents.py:224-237 | The four demonstration holdings score 0.4 on diversification. The analysis advises diversifying, and the hand-off report warns of insufficient diversification. |
| SpecializedAgents.DemoRiskIsMedium | agents/specialized_agents.py:244-245 | The risk branch's fixed data reads MEDIUM with the two moderate lines only. |
| SpecializedAgents.ChunksFor | agents/specialized_agents.py:203-265 | At least one chunk is yielded, and the help text is the whole answer iff the route is the help route. |
| SpecializedAgents.MasterFinanceAgent.constructor | agents/specialized_agents.py:178-195 | The "master_finance" agent with three specialists whose contexts are fresh and distinct. |
| SpecializedAgents.MasterFinanceAgent.StockBranch | agents/specialized_agents.py:206-218 | No symbol yields the symbol error and leaves the analyst untouched. Otherwise the analyst runs and its report or error is yielded. |
| SpecializedAgents.MasterFinanceAgent.PortfolioBranch | agents/specialized_agents.py:220-238 | The demonstration portfolio is analysed. Only on success comes the hand-off banner and the risk assessment of the analysis's figures, and only then does the risk manager pass RUNNING→COMPLETED. |
| SpecializedAgents.MasterFinanceAgent.Dispatch | agents/specialized_agents.py:203-265 | Yields the chosen branch's chunks and moves each specialist through exactly the states its branch passes through. No conversation history changes. |
| SpecializedAgents.MasterFinanceAgent.RouteRequest | agents/specialized_agents.py:197-269 | Yields the chunks of the keyword route and leaves every specialist in the states that route implies. |
| SpecializedAgents.RunKeyInjective | agents/specialized_agents.py:279 | Run ids built with different counters differ, whatever the agent ids. |
| SpecializedAgents.NextKeyFresh | agents/specialized_agents.py:279-283 | While every run sits under the id of its position, the next id is new and all ids are distinct. |
| SpecializedAgents.KeyedAppend | agents/specialized_agents.py:279-288 | Appending the next run under its id keeps every run keyed by position. |
| SpecializedAgents.NoneRunningAppend | agents/specialized_agents.py:295-300 | Appending a finished run keeps no run "running". |
| SpecializedAgents.RunningOnly | agents/specialized_agents.py:310-314 | Exactly the runs whose status is "running". |
| SpecializedAgents.RunningOnlyEmpty | agents/specialized_agents.py:308-314 | With no run marked "running" the list is empty. |
| SpecializedAgents.AgentRunner.constructor | agents/specialized_agents.py:273-275 | No runs, a fresh master, nothing running. |
| SpecializedAgents.AgentRunner.GetRunStatus | agents/specialized_agents.py:304-306 | None (the "not_found" answer) iff the id is unknown. Otherwise the recorded run. |
| SpecializedAgents.AgentRunner.ListActiveRuns | agents/specialized_agents.py:308-314 | A run is listed iff it is recorded with status "running". |
| SpecializedAgents.AgentRunner.SettledHasNoActiveRuns | agents/specialized_agents.py:308-314 | Between executions no run is active. |
| SpecializedAgents.AgentRunner.OpenRun | agents/specialized_agents.py:279-288 | A "running" record is appended under "run_{agent}_{count}", an id not used before. |
| SpecializedAgents.AgentRunner.CloseRun | agents/specialized_agents.py:295-301 | The newest record is replaced in place. |
| SpecializedAgents.AgentRunner.ExecuteAgent | agents/specialized_agents.py:277-302 | Exactly one run is appended under the next id, "completed" or, after a fault, "failed" with the error, and it can be found by GetRunStatus. The routed chunks are yielded, plus the failure line after a fault. No run is left "running". |
| RiskManager.Position | utils/risk_manager.py:21 | The fractional position q·(n−1) lies in [0, n−1]. |
| RiskManager.Interpolate | utils/risk_manager.py:21 | Linear interpolation in an ascending sequence stays between its first and last element. |
| RiskManager.Quantile | utils/risk_manager.py:21 | numpy's default percentile lies between the smallest and largest return. |
| RiskManager.InterpolateAtIndex | utils/risk_manager.py:21 | At a whole-numbered position the interpolation is that element. |
| RiskManager.QuantileAtWhole | utils/risk_manager.py:21 | Where q·(n−1) is a whole number k, the percentile is the k-th smallest return. |
| RiskManager.QuantileAtRank | utils/risk_manager.py:21 | The percentile at k/(n−1) is the k-th smallest return. |
| RiskManager.QuantileEnds | utils/risk_manager.py:21 | The 0th and 100th percentiles are the minimum and maximum return. |
| RiskManager.InterpolateMonotone | utils/risk_manager.py:21 | In an ascending sequence, a later fractional position never interpolates to a smaller value. |
| RiskManager.QuantileMonotone | utils/risk_manager.py:21 | A higher percentile level never gives a smaller percentile. |
| RiskManager.CalculateVar | utils/risk_manager.py:18-24 | 0.0 when the percentile raises (empty series, level outside [0, 1]). Otherwise a value between the minimum and maximum return. |
| RiskManager.Tail | utils/risk_manager.py:30 | Only returns at or below VaR, each a member of the series. Non-empty when some return is at or below VaR. |
| RiskManager.CalculateCVaR | utils/risk_manager.py:26-30 | NaN (None) iff no return lies at or below VaR. |
| RiskManager.CVaRAtMostVaR | utils/risk_manager.py:29-30 | For a non-empty series and a valid level the tail is never empty, and min ≤ CVaR ≤ VaR. |
| RiskManager.VarMonotone | utils/risk_manager.py:18-21 | Within [0, 1], a higher confidence level never gives a smaller VaR. |
| RiskManager.CalculateMaxDrawdown | utils/risk_manager.py:58-67 | NaN (None) for no returns. While every return exceeds −1 and there is at least one, a number in (−1, 0]. |
| RiskManager.AssessPortfolioRisk | utils/risk_manager.py:44-53 | var_95 and cvar_95 are taken at the 0.05 level. |
| RiskManager.AssessmentConsistent | utils/risk_manager.py:47-52 | For non-empty returns: CVaR ≤ VaR within the return range and, while every return exceeds −1, the drawdown is a number in (−1, 0]. |
| RiskManager.AssessEmpty | utils/risk_manager.py:20-30 | With no returns VaR falls back to 0.0, and CVaR and drawdown are NaN. |
| Drawdown.CurveStep | utils/risk_manager.py:61 | Each point of `(1 + r).cumprod()` is the previous one grown by that period's return. |
| Drawdown.RunMaxBounds | utils/risk_manager.py:62 | The running maximum bounds every point so far and is attained by one of them. |
| Drawdown.TermsAll | utils/risk_manager.py:63 | With no zero maximum, every point contributes (c − m)/m, in order. |
| Drawdown.TermsAre | utils/risk_manager.py:63-64 | The values `min()` sees are exactly the drawdowns at the points whose running maximum is not 0. |
| Drawdown.TermsEmpty | utils/risk_manager.py:63-64 | No drawdown is a number iff every running maximum is 0. |
| Drawdown.MinOfTerms | utils/risk_manager.py:64 | The smallest of them is attained at one such point and no such point has a smaller drawdown. |
| Drawdown.MaxDrawdown | utils/risk_manager.py:61-64 | NaN (None) for no returns, and None iff every running maximum is 0. Otherwise the least drawdown (c − m)/m over the points with m ≠ 0, attained at one of them. |
| Drawdown.CurvePositive | utils/risk_manager.py:61 | While every return exceeds −1 the curve stays strictly positive. |
| Drawdown.TermsRange | utils/risk_manager.py:63 | Below a positive maximum every term lies in (−1, 0] and is 0 iff the point is at the maximum. |
| Drawdown.PositiveCurve | utils/risk_manager.py:61-62 | While returns exceed −1, every point lies in (0, running max]. |
| Drawdown.MaxDrawdownRange | utils/risk_manager.py:61-64 | For a non-empty series with returns above −1, the maximum drawdown is a number in (−1, 0]. |
| Drawdown.MaxDrawdownZeroIff | utils/risk_manager.py:61-64 | With returns above −1, the drawdown is 0 iff every return after the first is non-negative, i.e. the curve never falls. |
| Drawdown.TermsMinZero | utils/risk_manager.py:63-64 | The smallest term is 0 iff every point is at its running maximum. |
| Drawdown.CurveAtMaxIff | utils/risk_manager.py:61-62 | The curve is at its running maximum everywhere iff no return after the first is negative. |
| Drawdown.NonDecreasingCurve | utils/risk_manager.py:61 | Non-negative returns after the first make the curve non-decreasing. |
| PortfolioAnalyzer.EqualWeights | utils/portfolio_analyzer.py:36 | n weights. |
| PortfolioAnalyzer.EqualWeightsSumToOne | utils/portfolio_analyzer.py:35-36 | The default weights are equal and positive and sum to exactly 1. |
| PortfolioAnalyzer.PortfolioReturns | utils/portfolio_analyzer.py:39 | One weighted return per period. |
| PortfolioAnalyzer.SingleAssetReturns | utils/portfolio_analyzer.py:39 | All weight on one asset makes the portfolio return that asset's column. |
| PortfolioAnalyzer.EqualWeightReturnsAreRowMeans | utils/portfolio_analyzer.py:35-39 | With default weights each period's return is the mean of the asset returns. |
| PortfolioAnalyzer.TotalReturnCompounds | utils/portfolio_analyzer.py:42 | 1 + total return over two stretches is the product of their 1 + total returns. |
| PortfolioAnalyzer.TotalReturnBase | utils/portfolio_analyzer.py:42 | No periods give 0, and one period's total return is that period's return. |
| PortfolioAnalyzer.TotalReturnAboveMinusOne | utils/portfolio_analyzer.py:42 | While no period loses everything, the total return exceeds −100%. |
| PortfolioAnalyzer.TotalReturn | utils/portfolio_analyzer.py:42 | The product of 1 + r over the periods, minus 1. Its contract is stated by TotalReturnCompounds, TotalReturnBase and TotalReturnAboveMinusOne. |
| PortfolioAnalyzer.CalculatePortfolioMetrics | utils/portfolio_analyzer.py:33-60 | Succeeds iff default weights meet at least one column, or the given weights match the columns. On success the portfolio returns are the weighted row sums under the given or equal weights, one per period; the total return compounds them and the drawdown is the one of their compounded curve. |
| PortfolioAnalyzer.MetricsBounded | utils/portfolio_analyzer.py:39-51 | For any weights whose portfolio returns all exceed −1, the total return exceeds −1 and the drawdown of a non-empty history is a number in (−1, 0], 0 iff no period after the first loses. |
| PortfolioAnalyzer.WeightedSumAtLeast | utils/portfolio_analyzer.py:39 | A row's weighted sum under non-negative weights is at least its smallest return times the total weight. |
| PortfolioAnalyzer.ConvexAboveMinusOne | utils/portfolio_analyzer.py:39 | Non-negative weights summing to 1 over returns above −1 give a period return above −1. |
| PortfolioAnalyzer.LongOnlyMetricsBounded | utils/portfolio_analyzer.py:39-51 | Non-negative weights summing to 1 with every asset return above −1 give a total return above −1 and a drawdown in (−1, 0]. |
| PortfolioAnalyzer.DefaultMetricsBounded | utils/portfolio_analyzer.py:35-51 | With default weights and asset returns above −1, the table is analysed, the total return exceeds −1 and the drawdown is a number in (−1, 0]. |
| PortfolioAnalyzer.PyIndex | utils/portfolio_analyzer.py:108 | Python indexing: a non-negative index is itself, and a negative one counts from the end. |
| PortfolioAnalyzer.OrderStatsBound | utils/portfolio_analyzer.py:108-109 | In ascending order the mean of the values before k lies between the first value and the k-th. |
| PortfolioAnalyzer.CalculateVarCvar | utils/portfolio_analyzer.py:103-111 | Succeeds iff index = int(cl·n) lies in [−n, n). |
| PortfolioAnalyzer.IndexInRange | utils/portfolio_analyzer.py:106 | A level in [0, 1) gives an index in [0, n). |
| PortfolioAnalyzer.VarCvarOrdered | utils/portfolio_analyzer.py:105-111 | For a level in [0, 1), VaR is one of the returns. CVaR is NaN iff the index is 0, and otherwise min ≤ CVaR ≤ VaR. |
| PortfolioAnalyzer.VarCvarEmpty | utils/portfolio_analyzer.py:108 | An empty series raises at any level. |
| PortfolioAnalyzer.SectorList | utils/portfolio_analyzer.py:199-200 | One sector per holding. |
| PortfolioAnalyzer.AccumulateSectors | utils/portfolio_analyzer.py:198-203 | Sectors appear in order of first appearance. Each sector's entry is the total weight of its symbols, and the totals sum to the total input weight. |
| PortfolioAnalyzer.SectorAllocationAnalysis | utils/portfolio_analyzer.py:181-203 | The same over the fixed table, with unknown symbols under 'Other'. |
| PortfolioAnalyzer.SectorsOnceEach | utils/portfolio_analyzer.py:198-203 | Each sector appears once, and a sector appears iff some holding maps to it. |
| PortfolioAnalyzer.RowFor | utils/portfolio_analyzer.py:210-221 | The amount is (target − current)·value/100. The action is Buy iff amount > 0, Sell iff < 0, Hold iff = 0. |
| PortfolioAnalyzer.ActionFollowsWeights | utils/portfolio_analyzer.py:210-221 | For a positive portfolio value: Buy iff under target, Sell iff over, Hold iff on target. |
| PortfolioAnalyzer.RebalancingAnalysis | utils/portfolio_analyzer.py:205-224 | One row per current holding, in order, with a missing target read as 0. |
| PortfolioAnalyzer.AtTargetHolds | utils/portfolio_analyzer.py:211-221 | A holding at its target, or absent from the targets with zero weight, is Hold. |
| PortfolioAnalyzer.OptimizePortfolio | utils/portfolio_analyzer.py:62-101 | No assets raise. Otherwise the result is the solver's weights iff scipy ran 'sharpe' or 'min_vol' successfully, and equal weights in every other case. |
| PortfolioAnalyzer.FallbackIsFullyInvested | utils/portfolio_analyzer.py:66-69 | Every fallback is positive weights summing to 1. |
| AIAdvisor.AgeShare | utils/ai_advisor.py:37 | The age share lies in [0.2, 0.9]. |
| AIAdvisor.RecommendedAllocation | utils/ai_advisor.py:37-51 | Stocks in [0.2, 0.9], bonds in [0.1, 0.7], cash in [0, 0.1], and the three sum to exactly 1. |
| AIAdvisor.HorizonShiftsAgeShare | utils/ai_advisor.py:42-49 | Between the clamps the stock share is the age share plus 0.1 (horizon > 10), −0.1 (horizon < 5) or 0. |
| AIAdvisor.StocksMonotone | utils/ai_advisor.py:37-49 | An older investor never gets more stocks, and a longer horizon never gets fewer. |
| AIAdvisor.CashTarget | utils/ai_advisor.py:50-51 | Cash is exactly 5% iff stocks lie in [0.25, 0.85]. |
| AIAdvisor.GetPortfolioRecommendation | utils/ai_advisor.py:32-64 | The recommended split. Rebalancing is quarterly iff the profile is "aggressive". The inputs are echoed. |
| AIAdvisor.CountsSnoc | utils/ai_advisor.py:76-84 | The tallies of a list are those of its prefix plus the last symbol's contribution. |
| AIAdvisor.ScoreCounts | utils/ai_advisor.py:76-84 | The score is the number of rising symbols minus the number of falling ones, and there is one signal per rising or falling symbol. |
| AIAdvisor.RisingIff | utils/ai_advisor.py:79-81 | A symbol has a rising signal iff it has data and its recent change exceeds 2%. |
| AIAdvisor.FallingIff | utils/ai_advisor.py:82-84 | A symbol has a falling signal iff it has data and its recent change is below −2%. |
| AIAdvisor.SentimentOf | utils/ai_advisor.py:69-110 | The failure answer (neutral, no signals) iff some symbol has one to four closes. Otherwise score = ups − downs, bullish iff ups > downs, bearish iff ups < downs, and the recommendation follows the label. |
| AIAdvisor.Sentiment.Advice | utils/ai_advisor.py:103-110 | Each label is a key of the recommendations table, so its entry is given and the fallback "Maintain balanced approach" never is. |
| AIAdvisor.AnalyzeMarketSentiment | utils/ai_advisor.py:69-101 | The loop computes SentimentOf. |
| AIAdvisor.AssessEmergencyFund | utils/ai_advisor.py:127-137 | Adequate iff fund ≥ 6 months of expenses, build-to-six iff in [3, 6) months, priority otherwise. Absent entries read as 0. |
| AIAdvisor.FundAdviceMonotone | utils/ai_advisor.py:132-137 | With non-negative expenses, a larger fund never gets worse advice. |
| AIAdvisor.AssessDebtSituation | utils/ai_advisor.py:139-151 | High iff debt/(12·income) > 0.4, moderate iff in (0.2, 0.4]. The ratio is 0 when income ≤ 0. |
| AIAdvisor.DebtAdviceByIncome | utils/ai_advisor.py:141-151 | For positive income: high iff debt > 4.8·income, moderate iff in (2.4·income, 4.8·income]. Non-positive income is always manageable. |
| AIAdvisor.RecommendInvestmentStrategy | utils/ai_advisor.py:153-163 | Growth iff age < 35, balanced iff 35 ≤ age < 55, income otherwise. Defaults are age 30 and "moderate", and the tolerance is carried into the advice. |
| AIAdvisor.SuggestTaxStrategies | utils/ai_advisor.py:165-174 | High-income advice iff annual income > 100000, middle iff in (50000, 100000]. |
| AIAdvisor.AssessInsuranceNeeds | utils/ai_advisor.py:176-186 | Dependents' cover iff dependents > 0, later-life cover iff there are none and age > 40. |
| AIAdvisor.GenerateFinancialAdvice | utils/ai_advisor.py:112-125 | Each of the five entries is the verdict of its own rule on the same profile: emergency fund, debt, investment strategy, tax and insurance. |
| AIAdvisor.EmptyProfileAdvice | utils/ai_advisor.py:112-186 | An empty profile gets the adequate-fund, manageable-debt, moderate growth, basic tax and basic insurance advice. |
| AdvancedAgents.Shares | agents/advanced_agent_system.py:87-95 | Neutral 0, positive + negative = 1, both in [0, 1], 0.5/0.5 with no keyword. Leans positive iff more positive keywords, and ties iff equal counts. |
| AdvancedAgents.KeywordSentiment | agents/advanced_agent_system.py:79-95 | The fallback's shares sum to 1 with neutral 0. A text with no keyword gets 0.5/0.5/0.0. |
| AdvancedAgents.KeywordLeaning | agents/advanced_agent_system.py:83-95 | The text leans positive iff more distinct positive than negative keywords occur, and is even iff the counts are equal. |
| AdvancedAgents.HorizonDays | agents/advanced_agent_system.py:223-230 | 1D→1, 1W→5, 1M→20, any other horizon→60, each an iff. |
| AdvancedAgents.LongerHorizonFurther | agents/advanced_agent_system.py:223-232 | With a non-negative price and trend, a longer horizon never predicts a lower price. |
| AdvancedAgents.ConfidenceInterval | agents/advanced_agent_system.py:235-238 | lower ≤ predicted ≤ upper when both are non-negative. The width is 4·price·volatility and the midpoint is the prediction. |
| AdvancedAgents.ProbabilityUp | agents/advanced_agent_system.py:241-242 | Always in [0.1, 0.9]. Above 0.5 iff the predicted change is positive, below iff negative. |
| AdvancedAgents.ProbabilityMonotone | agents/advanced_agent_system.py:241-242 | A larger predicted change never lowers the probability. |
| AdvancedAgents.RiskOfVolatility | agents/advanced_agent_system.py:256-261 | HIGH iff vol > 0.05, MEDIUM iff in (0.02, 0.05], LOW otherwise. |
| AdvancedAgents.RiskMonotone | agents/advanced_agent_system.py:256-261 | More volatility never means a lower level. |
| AdvancedAgents.KeyFactors | agents/advanced_agent_system.py:245-253 | Each factor is present iff its threshold is crossed. Overbought and Oversold exclude each other, and there are at most three factors. |
| AdvancedAgents.PredictStockMovement | agents/advanced_agent_system.py:200-275 | Raises "No data for …" iff there is no history. Otherwise the probability is in [0.1, 0.9] and above 0.5 iff the recent trend is positive, and the interval brackets the prediction. |
| AdvancedAgents.MarketImpactScore | agents/advanced_agent_system.py:314 | In [0, 1] when both shares are, and equal to the positive share when the shares sum to 1. |
| AdvancedAgents.HeadlineSentiments | agents/advanced_agent_system.py:298-301 | One keyword sentiment per headline, in order. |
| AdvancedAgents.NewsOf | agents/advanced_agent_system.py:298-330 | The overall scores are the element-wise mean of the headline scores, the impact score is computed from them, and the topic, trending-stock and timeline lists are the fixed ones. |
| AdvancedAgents.SumComplement | agents/advanced_agent_system.py:304-306 | Pairwise complementary shares add up to the count. |
| AdvancedAgents.MeanOfShares | agents/advanced_agent_system.py:304-314 | Averaged shares still sum to 1 and stay in [0, 1], with neutral 0. |
| AdvancedAgents.NewsImpactWithinUnit | agents/advanced_agent_system.py:304-314 | The news impact score lies in [0, 1], as the model field requires. |
| AdvancedAgents.AnalyzeNewsSentiment | agents/advanced_agent_system.py:285-332 | The loop computes the aggregate analysis of the headlines, and its impact is in [0, 1]. |
| AdvancedAgents.FillWeights | agents/advanced_agent_system.py:189 | Every column once, in order of first appearance, all with the same weight. |
| AdvancedAgents.EqualWeights | agents/advanced_agent_system.py:185-189 | The fallback gives weight 1/n to each distinct column. |
| AdvancedAgents.SumValuesConstant | agents/advanced_agent_system.py:189 | Equal values add up to count × value. |
| AdvancedAgents.DedupOfDistinct | agents/advanced_agent_system.py:189 | Distinct columns keep their order and number. |
| AdvancedAgents.EqualSharesSumToOne | agents/advanced_agent_system.py:189 | n values of 1/n sum to 1. |
| AdvancedAgents.QuantumFallbackSumsToOne | agents/advanced_agent_system.py:185-189 | For distinct non-empty columns the fallback weights sum to 1. |
| MainApp.Bar | main_app.py:226-227 | The bar has int(pct/5) filled cells padded with empty cells to 20, and is longer only when more than 20 cells are filled. |
| MainApp.BarShape | main_app.py:226-227 | For 0 ≤ pct ≤ 100 the bar is exactly 20 cells: k filled, where k·5 ≤ pct < (k+1)·5, then empty. |
| MainApp.BarMonotone | main_app.py:226 | A larger share never draws fewer filled cells. |
| MainApp.FormatAllocation | main_app.py:223-229 | One line per asset, in input order, with its percentage and bar. |
| MainApp.Symbols | main_app.py:188 | One symbol per holding, "" when absent. |
| MainApp.FillHoldings | main_app.py:186-191 | The keys are the distinct symbols in order of first appearance. |
| MainApp.LastHoldingWins | main_app.py:187-191 | Each symbol holds its last holding's entry, so a later duplicate overwrites an earlier one. |
| MainApp.HoldingValuesAsWritten | main_app.py:186-191 | As written: one entry per distinct symbol, holding shares × price. |
| MainApp.PriceCountedTwice | main_app.py:191 | Priced again by the analysis, an as-written entry is worth the position's true worth times the submitted price. |
| MainApp.PriceCountedTwiceExample | main_app.py:191 | 10 AAPL at 150, quoted at 150, is analysed as 225000 instead of 1500. |
| MainApp.HoldingShares | main_app.py:186-191 | Corrected: one entry per distinct symbol, holding the share count. |
| MainApp.CorrectedWorthIsMarketValue | main_app.py:191 | Corrected, the analysed worth is shares × current price, which is the submitted value when the quote is unchanged. |
| MainApp.ConvertHoldings | main_app.py:186-191 | The loop builds the corrected holdings dictionary. |
| MainApp.ReviewCountsDistinctSymbols | main_app.py:177-193 | The warning is shown iff the portfolio is empty. The review advises diversifying iff fewer than 5 distinct symbols were submitted. |
| MainApp.ReviewOf | main_app.py:177-193 | The empty-portfolio warning, the error of the analysis, or the report on the merged holdings. Its contract is stated by ReviewCountsDistinctSymbols. |
| MainApp.AddToWatchlist | main_app.py:398-399 | The symbol ends up listed and nothing else is added. No duplicates arise, and the list is unchanged iff the symbol was already there. |
| MainApp.AddTwiceSameAsOnce | main_app.py:398-402 | Re-adding a symbol changes nothing. |
| MainApp.WatchedSymbolPlain | main_app.py:393 | A value without "watch_" is kept as it is. |
| MainApp.WatchedSymbolPrefixed | main_app.py:393 | "watch_" + symbol gives the symbol back. |
| MainApp.WatchedSymbol | main_app.py:393 | `replace("watch_", "")` on the button value. Its contract is stated by WatchedSymbolPlain and WatchedSymbolPrefixed. |
| MainApp.ActionTarget | main_app.py:231-243 | The four exact names first, then the "export_" prefix, then "watch_", each an iff. Export and watchlist receive the value, and any other name does nothing. |
| MainApp.FinanceAdvisorApp.constructor | main_app.py:24-29 | Session data empty: not initialised, no watchlist. |
| MainApp.FinanceAdvisorApp.InitializeSession | main_app.py:31-41 | User defaults to "anonymous", empty portfolio, "medium", "growth", empty history, and no watchlist. |
| MainApp.FinanceAdvisorApp.HandleWatchlist | main_app.py:392-402 | Creates the list if missing and adds the stripped symbol only if absent, keeping it duplicate-free. The notice says which happened, and nothing else changes. |
| MainApp.FinanceAdvisorApp.HandleAction | main_app.py:231-243 | Dispatches as ActionTarget. Only the watchlist action changes the session. |
| MainApp.FinanceAdvisorApp.ProcessPortfolioReview | main_app.py:167-221 | An empty portfolio gets the warning and the agent is not called. Otherwise the converted holdings are analysed and the agent passes RUNNING, then COMPLETED or ERROR. |
| MainApp.FinanceAdvisorApp.ProcessMessage | main_app.py:404-416 | Before initialisation it raises KeyError and nothing changes. Otherwise exactly one history entry is appended, the master's routed chunks are yielded, the specialists pass through the states of the chosen route, and no other session field changes. |
| MainApp.FinanceAdvisorApp.End | main_app.py:440-443 | Marks the session ended and changes nothing else. |

## Left out

- Chainlit UI, messages, settings dialogs, `asyncio.sleep` pacing and lifecycle-hook invocation: presentation and framework plumbing. Hooks are recorded by name but never called.
- Network fetches (yfinance): closing prices come in as a `market` map. Prices are required to be positive, because the source divides by them.
- Prediction features: RSI, rolling means and volatility are inputs of `AdvancedAgents.PredictStockMovement`. NaN features from too short a history are not modelled.
- Timestamps, `started_at`, `ended_at`, `start_time`, `end_time`: the clock is a parameter or omitted.
- Number formatting in agent text (`:.2f`, `:.0%`, `:,.2f`, `:.1f`) and the `"\n".join` of `format_allocation`: reports are carried as structured chunks and allocation lines as structured records.
- SpecializedAgents.HandoffData: only the numeric fields of the analysis are handed to the risk manager. The recommendations list it also carries is not read by `assess_risk`.
- The `agents` registry dict of the master agent: it is never read.
- BaseAgent.Agent.ProcessMessage: the streaming step's exception is a `Fault` parameter. `RunState.COMPLETED` is the constructor `Done`.
- SpecializedAgents.AgentRunner.ExecuteAgent: any exception raised around the routing is the `fault` parameter. Where it is raised, and which chunks were already yielded, is not modelled: all routed chunks come first.
- BaseAgent.GetStockData: an invalid symbol gives the bare message "Invalid stock symbol". The source raises pydantic's `ValidationError`, whose text adds the model name, field name and error type around that message, and the chat shows that longer text.
- AdvancedAgents.AnalyzeNewsSentiment: the headlines are a parameter. The source always analyses the same five built-in headlines and ignores its `query` argument. What the keyword fallback makes of those five is not computed.
- A generator consumed only partially is not modelled. Each stream is the full sequence of chunks.
- Case mapping, `isalpha` and `isspace` cover ASCII letters and Python's whitespace characters only, not full Unicode.
- The transformers and embedding pipelines of `AIModelManager`: only the keyword fallback is modelled.
- The Dirichlet sampling and annealing loop of `quantum_optimize`: random, so only its equal-weight fallback is modelled. The fallback's sum is proved for distinct columns, since a repeated column name collapses into one key.
- scipy's SLSQP optimiser: its outcome is the `SolverOutcome` parameter.
- Monte Carlo simulation, efficient frontier, correlation, performance attribution, annualised return, volatility and Sharpe ratio: they need square roots, powers or randomness. `RiskManager.AssessPortfolioRisk` covers only the VaR, CVaR and drawdown fields.
- utils/financial_planner.py, utils/stock_analyzer.py, utils/data_fetcher.py, config.py and the scripts are not part of this model.
- The `advice_templates` lookup in `get_portfolio_recommendation`: its result is never used.
- AIAdvisor.GenerateFinancialAdvice: profile values of the wrong type, which would raise inside the rules, are not modelled. Each entry is typed and optional.
- AIAdvisor.SentimentOf: a symbol with no rows is skipped, and one with one to four rows raises and yields the failure answer.
- JSON parsing of the submitted portfolio and entries that are not dictionaries: `MainApp.FinanceAdvisorApp.ProcessPortfolioReview` receives the parsed holdings.
- The stock, risk, market and export UI flows behind `handle_action`: only the dispatch and the watchlist flow are modelled.
- MainApp.FinanceAdvisorApp.ProcessPortfolioReview: uses the corrected holdings conversion (see Findings).

## Findings

| source | as written | input that shows it | evidently intended | confidence | as-written member | corrected member |
|---|---|---|---|---|---|---|
| main_app.py:191 | The portfolio review stores `shares * price` per symbol. `analyze_portfolio` (agents/base_agent.py:202) then multiplies that entry by the current price again, as if it were a share count. | `[{"symbol": "AAPL", "shares": 10, "price": 150}]` with AAPL quoted at 150: the position is analysed as worth 225000 instead of 1500. | Store the number of shares per symbol, so the analysed worth is shares × current price. | not executed | MainApp.PriceCountedTwiceExample | MainApp.CorrectedWorthIsMarketValue |
