/** `PortfolioAnalyzer` (utils/portfolio_analyzer.py): per-period portfolio
    returns and their compounding, the sorted-order VaR/CVaR pair, sector
    totals, rebalancing rows and the equal-weight fallback of the optimiser.
    A returns table is a list of columns (assets) and rows (periods). */
module PortfolioAnalyzer {
  import opened Wrappers
  import opened Numeric
  import opened OrderedDict
  import Drawdown

  /** A pandas DataFrame of per-period returns: one value per column per row. */
  datatype Frame = Frame(columns: seq<string>, rows: seq<seq<real>>)

  predicate WellFormed(f: Frame) {
    forall t | 0 <= t < |f.rows| :: |f.rows[t]| == |f.columns|
  }

  /** `np.array([1/n] * n)`. */
  function EqualWeights(n: nat): (w: seq<real>)
    requires n > 0
    ensures |w| == n
  {
    seq(n, _ => 1.0 / n as real)
  }

  /** Equal weights are all the same and add up to exactly 1. */
  lemma EqualWeightsSumToOne(n: nat)
    requires n > 0
    ensures forall i, j | 0 <= i < n && 0 <= j < n :: EqualWeights(n)[i] == EqualWeights(n)[j] > 0.0
    ensures Sum(EqualWeights(n)) == 1.0
  {
    SumConstant(n, 1.0 / n as real);
  }

  /** `(row * weights).sum()`: one period's weighted return. */
  function Dot(row: seq<real>, w: seq<real>): real
    requires |row| == |w|
  {
    Sum(seq(|w|, j requires 0 <= j < |w| => row[j] * w[j]))
  }

  /** `(returns * weights).sum(axis=1)`: the portfolio's return in each period. */
  function PortfolioReturns(rows: seq<seq<real>>, w: seq<real>): (p: seq<real>)
    requires forall t | 0 <= t < |rows| :: |rows[t]| == |w|
    ensures |p| == |rows|
  {
    seq(|rows|, t requires 0 <= t < |rows| => Dot(rows[t], w))
  }

  /** The weight vector putting everything in asset `j`. */
  function Unit(n: nat, j: nat): (w: seq<real>)
    requires j < n
    ensures |w| == n
  {
    seq(n, i => if i == j then 1.0 else 0.0)
  }

  /** Putting all the weight in one asset makes the portfolio return that
      asset's column. */
  lemma SingleAssetReturns(rows: seq<seq<real>>, n: nat, j: nat)
    requires j < n
    requires forall t | 0 <= t < |rows| :: |rows[t]| == n
    ensures forall t | 0 <= t < |rows| :: PortfolioReturns(rows, Unit(n, j))[t] == rows[t][j]
  {
    var w := Unit(n, j);
    forall t | 0 <= t < |rows| ensures Dot(rows[t], w) == rows[t][j] {
      var terms := seq(n, i requires 0 <= i < n => rows[t][i] * w[i]);
      SumOneNonZero(terms, j);
    }
  }

  /** With equal weights each period's portfolio return is the mean of the
      asset returns in that period. */
  lemma EqualWeightReturnsAreRowMeans(rows: seq<seq<real>>, n: nat)
    requires n > 0
    requires forall t | 0 <= t < |rows| :: |rows[t]| == n
    ensures forall t | 0 <= t < |rows| :: PortfolioReturns(rows, EqualWeights(n))[t] == Mean(rows[t])
  {
    var w := EqualWeights(n);
    forall t | 0 <= t < |rows| ensures Dot(rows[t], w) == Mean(rows[t]) {
      var row := rows[t];
      var c := 1.0 / n as real;
      SumScale(row, c);
      var lhs := seq(n, j requires 0 <= j < n => row[j] * w[j]);
      var rhs := seq(|row|, i requires 0 <= i < |row| => row[i] * c);
      assert forall j | 0 <= j < n :: lhs[j] == rhs[j];
      assert lhs == rhs;
      assert Sum(row) * c == Sum(row) / n as real;
    }
  }

  /** `(1 + portfolio_returns).prod() - 1`. */
  function TotalReturn(p: seq<real>): real {
    Prod(Drawdown.Growth(p)) - 1.0
  }

  /** Total return compounds: the growth over two stretches of periods is the
      product of their growths. */
  lemma TotalReturnCompounds(a: seq<real>, b: seq<real>)
    ensures 1.0 + TotalReturn(a + b) == (1.0 + TotalReturn(a)) * (1.0 + TotalReturn(b))
  {
    assert Drawdown.Growth(a + b) == Drawdown.Growth(a) + Drawdown.Growth(b);
    ProdConcat(Drawdown.Growth(a), Drawdown.Growth(b));
  }

  /** No periods, no return; one period's total return is that period's return. */
  lemma TotalReturnBase(x: real)
    ensures TotalReturn([]) == 0.0
    ensures TotalReturn([x]) == x
  {
    assert Drawdown.Growth([x])[..0] == [];
  }

  /** While no period loses everything, the total return stays above -100%. */
  lemma TotalReturnAboveMinusOne(p: seq<real>)
    requires forall t | 0 <= t < |p| :: p[t] > -1.0
    ensures TotalReturn(p) > -1.0
  {
    ProdPositive(Drawdown.Growth(p));
  }

  /** The fields of `calculate_portfolio_metrics` that need no power or square
      root. */
  datatype Metrics = Metrics(totalReturn: real, maxDrawdown: Option<real>, portfolioReturns: seq<real>)

  /** The weights `calculate_portfolio_metrics` applies: the given ones, or
      equal weights when none are given. */
  function WeightsFor(n: nat, weights: Option<seq<real>>): seq<real>
    requires weights.None? ==> n > 0
  {
    if weights.None? then EqualWeights(n) else weights.value
  }

  /** `calculate_portfolio_metrics(returns, weights)`: equal weights when none
      are given (a ZeroDivisionError with no columns); weights of the wrong
      length cannot be broadcast against the table. On success the portfolio
      returns are the weighted row sums, the total return compounds them and
      the drawdown is that of their compounded curve. */
  function CalculatePortfolioMetrics(table: Frame, weights: Option<seq<real>>): (r: Result<Metrics>)
    requires WellFormed(table)
    ensures r.Ok? <==> ((weights.None? && |table.columns| > 0) ||
                        (weights.Some? && |weights.value| == |table.columns|))
    ensures r.Ok? ==> |r.value.portfolioReturns| == |table.rows|
    ensures r.Ok? ==> r.value.portfolioReturns == PortfolioReturns(table.rows, WeightsFor(|table.columns|, weights))
    ensures r.Ok? ==> r.value.totalReturn == TotalReturn(r.value.portfolioReturns)
    ensures r.Ok? ==> r.value.maxDrawdown == Drawdown.MaxDrawdown(r.value.portfolioReturns)
  {
    var n := |table.columns|;
    if weights.None? && n == 0 then Err("division by zero")
    else
      var w := WeightsFor(n, weights);
      if |w| != n then Err("Unable to coerce to Series, length must match the columns")
      else
        var p := PortfolioReturns(table.rows, w);
        Ok(Metrics(TotalReturn(p), Drawdown.MaxDrawdown(p), p))
  }

  /** For any weights, while no period's portfolio return loses everything,
      the total return exceeds -100% and the drawdown of a non-empty history
      is a number in (-1, 0], 0 exactly when no period after the first loses
      money. */
  lemma MetricsBounded(table: Frame, weights: Option<seq<real>>)
    requires WellFormed(table) && |table.rows| > 0
    requires CalculatePortfolioMetrics(table, weights).Ok?
    requires forall t | 0 <= t < |table.rows| :: CalculatePortfolioMetrics(table, weights).value.portfolioReturns[t] > -1.0
    ensures var m := CalculatePortfolioMetrics(table, weights).value;
      m.totalReturn > -1.0 &&
      m.maxDrawdown.Some? && -1.0 < m.maxDrawdown.value <= 0.0 &&
      (m.maxDrawdown.value == 0.0 <==> forall t | 1 <= t < |table.rows| :: m.portfolioReturns[t] >= 0.0)
  {
    var p := CalculatePortfolioMetrics(table, weights).value.portfolioReturns;
    TotalReturnAboveMinusOne(p);
    Drawdown.MaxDrawdownRange(p);
    Drawdown.MaxDrawdownZeroIff(p);
  }

  /** A weighted sum with non-negative weights is at least the smallest
      value times the total weight. */
  lemma {:induction false} WeightedSumAtLeast(x: seq<real>, w: seq<real>, lo: real)
    requires |x| == |w|
    requires forall j | 0 <= j < |w| :: w[j] >= 0.0 && x[j] >= lo
    ensures Dot(x, w) >= lo * Sum(w)
  {
    var n := |w|;
    if n > 0 {
      var t := seq(n, j requires 0 <= j < n => x[j] * w[j]);
      var x', w' := x[..n - 1], w[..n - 1];
      WeightedSumAtLeast(x', w', lo);
      var u := seq(|w'|, j requires 0 <= j < |w'| => x'[j] * w'[j]);
      assert |t[..n - 1]| == |u|;
      assert forall j | 0 <= j < n - 1 :: t[..n - 1][j] == u[j];
      assert t[..n - 1] == u;
      assert 0.0 <= (x[n - 1] - lo) * w[n - 1];
      assert lo * Sum(w) == lo * Sum(w') + lo * w[n - 1];
    }
  }

  /** Long-only weights that sum to 1 (the optimiser's constraints) keep every
      period's portfolio return above -100% while every asset return is. */
  lemma LongOnlyMetricsBounded(table: Frame, w: seq<real>)
    requires WellFormed(table) && |table.rows| > 0 && |w| == |table.columns|
    requires forall j | 0 <= j < |w| :: w[j] >= 0.0
    requires Sum(w) == 1.0
    requires forall t, j | 0 <= t < |table.rows| && 0 <= j < |table.columns| :: table.rows[t][j] > -1.0
    ensures var m := CalculatePortfolioMetrics(table, Some(w)).value;
      m.totalReturn > -1.0 && m.maxDrawdown.Some? && -1.0 < m.maxDrawdown.value <= 0.0
  {
    var p := CalculatePortfolioMetrics(table, Some(w)).value.portfolioReturns;
    assert p == PortfolioReturns(table.rows, w);
    forall t | 0 <= t < |table.rows| ensures p[t] > -1.0 {
      ConvexAboveMinusOne(table.rows[t], w);
    }
    MetricsBounded(table, Some(w));
  }

  /** A long-only, fully invested mix of returns above -100% is above -100%. */
  lemma ConvexAboveMinusOne(row: seq<real>, w: seq<real>)
    requires |row| == |w|
    requires forall j | 0 <= j < |w| :: w[j] >= 0.0 && row[j] > -1.0
    requires Sum(w) == 1.0
    ensures Dot(row, w) > -1.0
  {
    assert |w| > 0;
    var lo := Min(row);
    WeightedSumAtLeast(row, w, lo);
    var i :| 0 <= i < |row| && row[i] == lo;
    assert lo * Sum(w) == lo;
  }

  /** With default weights on a non-empty table whose asset returns all exceed
      -100%, the portfolio's drawdown is a number in (-1, 0] and its total
      return exceeds -100%. */
  lemma DefaultMetricsBounded(table: Frame)
    requires WellFormed(table) && |table.columns| > 0 && |table.rows| > 0
    requires forall t, j | 0 <= t < |table.rows| && 0 <= j < |table.columns| :: table.rows[t][j] > -1.0
    ensures var r := CalculatePortfolioMetrics(table, None);
      r.Ok? && r.value.totalReturn > -1.0 &&
      r.value.maxDrawdown.Some? && -1.0 < r.value.maxDrawdown.value <= 0.0
  {
    var n := |table.columns|;
    EqualWeightsSumToOne(n);
    LongOnlyMetricsBounded(table, EqualWeights(n));
    assert CalculatePortfolioMetrics(table, None) == CalculatePortfolioMetrics(table, Some(EqualWeights(n)));
  }

  /** Python's `a[index]` position for an index in [-n, n). */
  function PyIndex(index: int, n: nat): (k: nat)
    requires -(n as int) <= index < n
    ensures k < n
    ensures index >= 0 ==> k == index
    ensures index < 0 ==> k + (-index) == n
  {
    if index < 0 then n + index else index
  }

  /** The `k`-th smallest value and the mean of the `k` values before it. */
  function OrderStats(a: seq<real>, k: nat): (real, Option<real>)
    requires k < |a|
  {
    (a[k], if k == 0 then None else Some(Mean(a[..k])))
  }

  /** In ascending order, the mean of the values before position `k` lies
      between the first value and the value at `k`. */
  lemma OrderStatsBound(a: seq<real>, k: nat)
    requires Sorted(a) && 0 < k < |a|
    ensures a[0] <= OrderStats(a, k).1.value <= a[k]
  {
    forall i | 0 <= i < k ensures a[0] <= a[..k][i] <= a[k] {
    }
    MeanWithin(a[..k], a[0], a[k]);
  }

  /** `calculate_var_cvar(returns, confidence_level)`: the order statistic at
      `int(confidence_level * n)` of the sorted returns, and the mean of the
      ones before it. Python's negative indices count from the end; an index
      outside [-n, n) raises IndexError. The mean of an empty slice is NaN
      (None). */
  function CalculateVarCvar(series: seq<real>, confidenceLevel: real): (r: Result<(real, Option<real>)>)
    ensures var index := IndexFor(confidenceLevel, |series|);
      r.Ok? <==> -|series| <= index < |series|
  {
    var n := |series|;
    var index := IndexFor(confidenceLevel, n);
    if !(-n <= index < n) then Err("index " + "out of bounds")
    else Ok(OrderStats(Sort(series), PyIndex(index, n)))
  }

  /** `int(confidence_level * len(sorted_returns))`. */
  function IndexFor(confidenceLevel: real, n: nat): int {
    Trunc(confidenceLevel * n as real)
  }

  /** A level in [0, 1) gives an index in [0, n). */
  lemma IndexInRange(confidenceLevel: real, n: nat)
    requires 0.0 <= confidenceLevel < 1.0 && n > 0
    ensures 0 <= IndexFor(confidenceLevel, n) < n
  {
    assert 0.0 <= confidenceLevel * n as real < n as real by {
      assert confidenceLevel * n as real < 1.0 * n as real;
    }
  }

  /** For a level in [0, 1) and a non-empty series the index is in range, VaR
      is one of the returns, CVaR is NaN exactly when the index is 0, and
      otherwise the smallest return <= CVaR <= VaR. */
  lemma VarCvarOrdered(series: seq<real>, confidenceLevel: real)
    requires |series| > 0 && 0.0 <= confidenceLevel < 1.0
    ensures var r := CalculateVarCvar(series, confidenceLevel);
      r.Ok? && r.value.0 in series &&
      (r.value.1.None? <==> IndexFor(confidenceLevel, |series|) == 0) &&
      (r.value.1.Some? ==> Min(series) <= r.value.1.value <= r.value.0)
  {
    var n := |series|;
    var a := Sort(series);
    IndexInRange(confidenceLevel, n);
    var k := IndexFor(confidenceLevel, n);
    assert CalculateVarCvar(series, confidenceLevel) == Ok(OrderStats(a, k));
    assert a[k] in multiset(series);
    if k > 0 {
      SortExtremes(series);
      OrderStatsBound(a, k);
    }
  }

  /** With no returns the lookup fails at any level. */
  lemma VarCvarEmpty(confidenceLevel: real)
    ensures CalculateVarCvar([], confidenceLevel).Err?
  {
  }

  /** `sector_mapping`: the demo's fixed symbol-to-sector table. */
  const SectorMapping: Dict<string> := [
    ("AAPL", "Technology"), ("GOOGL", "Technology"), ("MSFT", "Technology"),
    ("AMZN", "Consumer Discretionary"), ("TSLA", "Consumer Discretionary"),
    ("JPM", "Financial Services"), ("JNJ", "Healthcare"), ("SPY", "Diversified ETF"),
    ("BND", "Bonds"), ("GLD", "Commodities")]

  /** `mapping.get(symbol, 'Other')`. */
  function SectorOf(mapping: Dict<string>, symbol: string): string {
    Get(mapping, symbol, "Other")
  }

  /** The total weight of the holdings whose symbol maps to `sector`. */
  function SectorWeight(mapping: Dict<string>, portfolio: Dict<real>, sector: string): real {
    if portfolio == [] then 0.0
    else
      var last := portfolio[|portfolio| - 1];
      SectorWeight(mapping, portfolio[..|portfolio| - 1], sector)
        + (if SectorOf(mapping, last.0) == sector then last.1 else 0.0)
  }

  /** The sector of each holding, in order. */
  function SectorList(mapping: Dict<string>, portfolio: Dict<real>): (ss: seq<string>)
    ensures |ss| == |portfolio|
  {
    seq(|portfolio|, i requires 0 <= i < |portfolio| => SectorOf(mapping, portfolio[i].0))
  }

  /** Adding holding `i` adds its weight to the total of the values. */
  lemma StepSum(allocation: Dict<real>, portfolio: Dict<real>, i: nat, sector: string, v: real)
    requires i < |portfolio|
    requires SumValues(allocation) == SumValues(portfolio[..i])
    requires v == Get(allocation, sector, 0.0) + portfolio[i].1
    ensures SumValues(Put(allocation, sector, v)) == SumValues(portfolio[..i + 1])
  {
    AddToSumValues(allocation, sector, portfolio[i].1);
    assert portfolio[..i + 1] == portfolio[..i] + [portfolio[i]];
    SumValuesSnoc(portfolio[..i], portfolio[i]);
  }

  /** Adding holding `i` appends its sector to the keys unless already there. */
  lemma StepKeys(mapping: Dict<string>, allocation: Dict<real>, portfolio: Dict<real>, i: nat, v: real)
    requires i < |portfolio|
    requires Keys(allocation) == Dedup(SectorList(mapping, portfolio[..i]))
    ensures Keys(Put(allocation, SectorOf(mapping, portfolio[i].0), v)) == Dedup(SectorList(mapping, portfolio[..i + 1]))
  {
    var p := portfolio[..i + 1];
    PutKeys(allocation, SectorOf(mapping, portfolio[i].0), v);
    assert SectorList(mapping, p)[..|p| - 1] == SectorList(mapping, portfolio[..i]);
  }

  /** Every sector's entry in `allocation` (0 when absent) is its total
      weight over `holdings`. */
  ghost predicate TotalsAgree(mapping: Dict<string>, allocation: Dict<real>, holdings: Dict<real>) {
    forall s :: Get(allocation, s, 0.0) == SectorWeight(mapping, holdings, s)
  }

  /** Adding holding `i` raises its sector's total by its weight and leaves
      the other sectors' totals alone. */
  lemma StepTotals(mapping: Dict<string>, allocation: Dict<real>, portfolio: Dict<real>, i: nat,
                   sector: string, v: real)
    requires i < |portfolio|
    requires TotalsAgree(mapping, allocation, portfolio[..i])
    requires sector == SectorOf(mapping, portfolio[i].0) && v == Get(allocation, sector, 0.0) + portfolio[i].1
    ensures TotalsAgree(mapping, Put(allocation, sector, v), portfolio[..i + 1])
  {
    var p := portfolio[..i + 1];
    assert p[..|p| - 1] == portfolio[..i];
    forall s ensures Get(Put(allocation, sector, v), s, 0.0) == SectorWeight(mapping, p, s) {
      if s == sector {
        PutGetSame(allocation, sector, v, 0.0);
      } else {
        PutKeepsOthers(allocation, sector, v, s, 0.0);
      }
    }
  }

  /** The loop of `sector_allocation_analysis` over a given symbol-to-sector
      table: after each holding, the dictionary has one entry per sector seen
      so far, in order of first appearance, each the sector's total weight. */
  method AccumulateSectors(mapping: Dict<string>, portfolio: Dict<real>) returns (allocation: Dict<real>)
    ensures Keys(allocation) == Dedup(SectorList(mapping, portfolio))
    ensures forall sector :: Get(allocation, sector, 0.0) == SectorWeight(mapping, portfolio, sector)
    ensures SumValues(allocation) == SumValues(portfolio)
  {
    allocation := [];
    assert SectorList(mapping, portfolio[..0]) == [];
    var i := 0;
    while i < |portfolio|
      invariant 0 <= i <= |portfolio|
      invariant Keys(allocation) == Dedup(SectorList(mapping, portfolio[..i]))
      invariant TotalsAgree(mapping, allocation, portfolio[..i])
      invariant SumValues(allocation) == SumValues(portfolio[..i])
    {
      var sector := SectorOf(mapping, portfolio[i].0);
      var v := Get(allocation, sector, 0.0) + portfolio[i].1;
      StepKeys(mapping, allocation, portfolio, i, v);
      StepTotals(mapping, allocation, portfolio, i, sector, v);
      StepSum(allocation, portfolio, i, sector, v);
      allocation := Put(allocation, sector, v);
      i := i + 1;
    }
    assert portfolio[..i] == portfolio;
  }

  /** `sector_allocation_analysis(portfolio_data)`: sector totals over the
      fixed symbol-to-sector table, sectors in order of first appearance, each
      the total weight of its holdings, all together the total weight. */
  method SectorAllocationAnalysis(portfolio: Dict<real>) returns (allocation: Dict<real>)
    ensures Keys(allocation) == Dedup(SectorList(SectorMapping, portfolio))
    ensures forall sector :: Get(allocation, sector, 0.0) == SectorWeight(SectorMapping, portfolio, sector)
    ensures SumValues(allocation) == SumValues(portfolio)
  {
    allocation := AccumulateSectors(SectorMapping, portfolio);
  }

  /** Each sector appears once in the result, and exactly the sectors of the
      holdings appear. */
  lemma SectorsOnceEach(mapping: Dict<string>, portfolio: Dict<real>, allocation: Dict<real>)
    requires Keys(allocation) == Dedup(SectorList(mapping, portfolio))
    ensures DistinctKeys(allocation)
    ensures forall sector :: sector in Keys(allocation) <==>
              exists i | 0 <= i < |portfolio| :: SectorOf(mapping, portfolio[i].0) == sector
  {
    var sl := SectorList(mapping, portfolio);
    DedupDistinct(sl);
    DedupMembers(sl);
    var ks := Keys(allocation);
    forall i, j | 0 <= i < j < |allocation| ensures allocation[i].0 != allocation[j].0 {
      assert ks[i] == allocation[i].0 && ks[j] == allocation[j].0;
    }
    forall sector
      ensures sector in ks <==> exists i | 0 <= i < |portfolio| :: SectorOf(mapping, portfolio[i].0) == sector
    {
      if sector in sl {
        var i :| 0 <= i < |portfolio| && sl[i] == sector;
      }
      if exists i | 0 <= i < |portfolio| :: SectorOf(mapping, portfolio[i].0) == sector {
        var i :| 0 <= i < |portfolio| && SectorOf(mapping, portfolio[i].0) == sector;
        assert sl[i] == sector;
      }
    }
  }

  datatype Action = Buy | Sell | Hold

  /** One row of the rebalancing table. */
  datatype RebalanceRow = RebalanceRow(
    asset: string, currentWeight: real, targetWeight: real,
    currentValue: real, targetValue: real, amount: real, action: Action)

  /** The row for one asset; weights are percentages of `portfolioValue`. */
  function RowFor(asset: string, current: real, target: real, portfolioValue: real): (row: RebalanceRow)
    ensures row.asset == asset && row.currentWeight == current && row.targetWeight == target
    ensures row.amount == (target - current) * portfolioValue / 100.0
    ensures row.action == Buy <==> row.amount > 0.0
    ensures row.action == Sell <==> row.amount < 0.0
    ensures row.action == Hold <==> row.amount == 0.0
  {
    var currentValue := current * portfolioValue / 100.0;
    var targetValue := target * portfolioValue / 100.0;
    var difference := targetValue - currentValue;
    RebalanceRow(asset, current, target, currentValue, targetValue, difference,
      if difference > 0.0 then Buy else if difference < 0.0 then Sell else Hold)
  }

  /** For a portfolio of positive value the action says which way the weight
      must move: Buy when under target, Sell when over, Hold when on it. */
  lemma ActionFollowsWeights(asset: string, current: real, target: real, portfolioValue: real)
    requires portfolioValue > 0.0
    ensures var row := RowFor(asset, current, target, portfolioValue);
      (row.action == Buy <==> target > current) &&
      (row.action == Sell <==> target < current) &&
      (row.action == Hold <==> target == current)
  {
    var d := target - current;
    if d > 0.0 {
      assert d * portfolioValue > 0.0;
    } else if d < 0.0 {
      assert d * portfolioValue < 0.0;
    }
  }

  /** `rebalancing_analysis(current_weights, target_weights, portfolio_value)`:
      one row per current holding, in order; a holding without a target
      counts as target 0. */
  method RebalancingAnalysis(currentWeights: Dict<real>, targetWeights: Dict<real>, portfolioValue: real)
    returns (rows: seq<RebalanceRow>)
    ensures |rows| == |currentWeights|
    ensures forall i | 0 <= i < |rows| ::
      rows[i] == RowFor(currentWeights[i].0, currentWeights[i].1,
                        Get(targetWeights, currentWeights[i].0, 0.0), portfolioValue)
  {
    rows := [];
    var i := 0;
    while i < |currentWeights|
      invariant 0 <= i <= |currentWeights|
      invariant |rows| == i
      invariant forall k | 0 <= k < i ::
        rows[k] == RowFor(currentWeights[k].0, currentWeights[k].1,
                          Get(targetWeights, currentWeights[k].0, 0.0), portfolioValue)
    {
      var (asset, current) := currentWeights[i];
      rows := rows + [RowFor(asset, current, Get(targetWeights, asset, 0.0), portfolioValue)];
      i := i + 1;
    }
  }

  /** A holding already at its target, or absent from the targets with no
      weight, needs no trade. */
  lemma AtTargetHolds(asset: string, weight: real, targetWeights: Dict<real>, portfolioValue: real)
    requires Get(targetWeights, asset, 0.0) == weight
    ensures RowFor(asset, weight, Get(targetWeights, asset, 0.0), portfolioValue).action == Hold
  {
  }

  /** What scipy's `minimize` did, standing in for the solver. */
  datatype SolverOutcome =
    | ScipyMissing                           // `HAS_SCIPY` is false
    | Raised(message: string)                // `minimize` raised
    | Finished(success: bool, x: seq<real>)  // `result.success`, `result.x`

  /** `optimize_portfolio(returns, method)`: the solver's weights when scipy is
      present, the method is 'sharpe' or 'min_vol' and the solver succeeds;
      otherwise equal weights (for an unknown method `result` is unbound and
      the resulting exception is caught). With no assets `1/n_assets` raises. */
  function OptimizePortfolio(nAssets: nat, objective: string, solver: SolverOutcome): (r: Result<seq<real>>)
    ensures nAssets == 0 <==> r.Err?
    ensures r.Ok? && !(solver.Finished? && solver.success && objective in ["sharpe", "min_vol"]) ==>
              r.value == EqualWeights(nAssets)
    ensures r.Ok? && solver.Finished? && solver.success && objective in ["sharpe", "min_vol"] ==>
              r.value == solver.x
  {
    if nAssets == 0 then Err("division by zero")
    else
      var x0 := EqualWeights(nAssets);
      match solver
      case ScipyMissing => Ok(x0)
      case Raised(_) => Ok(x0)
      case Finished(success, x) =>
        if objective != "sharpe" && objective != "min_vol" then Ok(x0)
        else if success then Ok(x) else Ok(x0)
  }

  /** Whatever the solver does, a fallback result is a valid allocation:
      non-negative weights adding up to 1. */
  lemma FallbackIsFullyInvested(nAssets: nat, objective: string, solver: SolverOutcome)
    requires nAssets > 0
    requires !(solver.Finished? && solver.success)
    ensures var r := OptimizePortfolio(nAssets, objective, solver);
      r.Ok? && Sum(r.value) == 1.0 && forall i | 0 <= i < |r.value| :: r.value[i] > 0.0
  {
    EqualWeightsSumToOne(nAssets);
  }
}
