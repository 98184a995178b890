/** `RiskManager` (utils/risk_manager.py): historical Value at Risk as numpy's
    linear-interpolation percentile, Conditional Value at Risk as the mean of
    the returns at or below it, and the maximum drawdown of the compounded
    curve. Each method catches its own exceptions and falls back to 0.0; a
    pandas mean or minimum over nothing is NaN, shown here as None. */
module RiskManager {
  import opened Wrappers
  import opened Numeric
  import Drawdown

  lemma ScaledPosition(q: real, n1: real)
    requires 0.0 <= q <= 1.0 && 0.0 <= n1
    ensures 0.0 <= q * n1 <= n1
  {
    assert q * n1 <= 1.0 * n1;
  }

  /** The fractional position `q * (n - 1)` of the `q` percentile among `n`
      ordered values. */
  function Position(q: real, n: nat): (h: real)
    requires 0.0 <= q <= 1.0 && n > 0
    ensures 0.0 <= h <= (n - 1) as real
  {
    ScaledPosition(q, (n - 1) as real);
    q * (n - 1) as real
  }

  /** The point a fraction `g` of the way from `x` to `y`. */
  function Lerp(x: real, y: real, g: real): (v: real)
    requires x <= y && 0.0 <= g <= 1.0
    ensures x <= v <= y
  {
    var d := y - x;
    assert 0.0 <= g * d;
    assert (1.0 - g) * d == d - g * d;
    assert 0.0 <= (1.0 - g) * d;
    x + g * d
  }

  /** Linear interpolation in an ascending sequence at fractional position `h`:
      between the element at `floor(h)` and the next one (the last one when
      `floor(h)` is the last position). */
  function Interpolate(a: seq<real>, h: real): (v: real)
    requires Sorted(a) && 0.0 <= h <= (|a| - 1) as real
    ensures a[0] <= v <= a[|a| - 1]
  {
    var lo := h.Floor;
    assert 0 <= lo < |a| by {
      assert lo as real <= h < lo as real + 1.0;
    }
    var hi := if lo + 1 < |a| then lo + 1 else |a| - 1;
    var g := h - lo as real;
    assert 0.0 <= g <= 1.0;
    assert a[0] <= a[lo] <= a[hi] <= a[|a| - 1];
    Lerp(a[lo], a[hi], g)
  }

  /** numpy's default percentile (linear interpolation between the order
      statistics around position `q * (n - 1)`), for `q` a fraction. */
  function Quantile(s: seq<real>, q: real): (v: real)
    requires |s| > 0 && 0.0 <= q <= 1.0
    ensures Min(s) <= v <= Max(s)
  {
    var a := Sort(s);
    var h := Position(q, |s|);
    SortExtremes(s);
    Interpolate(a, h)
  }

  /** At a whole-numbered position the interpolation is that element. */
  lemma InterpolateAtIndex(a: seq<real>, k: nat)
    requires Sorted(a) && k < |a|
    ensures Interpolate(a, k as real) == a[k]
  {
    assert (k as real).Floor == k;
  }

  /** Where the fractional position is a whole number `k`, the percentile is
      the `k`-th smallest return. */
  lemma QuantileAtWhole(s: seq<real>, q: real, k: nat)
    requires |s| > 0 && 0.0 <= q <= 1.0 && k < |s|
    requires Position(q, |s|) == k as real
    ensures Quantile(s, q) == Sort(s)[k]
  {
    InterpolateAtIndex(Sort(s), k);
  }

  lemma RankFraction(k: real, n1: real)
    requires 0.0 <= k <= n1 && 0.0 < n1
    ensures 0.0 <= k / n1 <= 1.0 && k / n1 * n1 == k
  {
    DivOrder(k, n1, n1);
    DivOrder(0.0, k, n1);
  }

  /** At a position that is a whole number of steps `k / (n - 1)` the
      percentile is exactly the `k`-th smallest return. */
  lemma QuantileAtRank(s: seq<real>, k: nat)
    requires 1 < |s| && k < |s|
    ensures Quantile(s, k as real / (|s| - 1) as real) == Sort(s)[k]
  {
    var n1 := (|s| - 1) as real;
    var q := k as real / n1;
    RankFraction(k as real, n1);
    assert Position(q, |s|) == k as real;
    QuantileAtWhole(s, q, k);
  }

  /** The lowest and highest percentiles are the smallest and largest return. */
  lemma QuantileEnds(s: seq<real>)
    requires |s| > 0
    ensures Quantile(s, 0.0) == Min(s)
    ensures Quantile(s, 1.0) == Max(s)
  {
    SortExtremes(s);
    assert Position(0.0, |s|) == 0 as real;
    QuantileAtWhole(s, 0.0, 0);
    assert Position(1.0, |s|) == (|s| - 1) as real;
    QuantileAtWhole(s, 1.0, |s| - 1);
  }

  /** Moving further along an ascending sequence never gives a smaller
      interpolated value. */
  lemma InterpolateMonotone(a: seq<real>, h1: real, h2: real)
    requires Sorted(a) && 0.0 <= h1 <= h2 <= (|a| - 1) as real
    ensures Interpolate(a, h1) <= Interpolate(a, h2)
  {
    var lo1, lo2 := h1.Floor, h2.Floor;
    assert lo1 as real <= h1 < lo1 as real + 1.0;
    assert lo2 as real <= h2 < lo2 as real + 1.0;
    assert 0 <= lo1 <= lo2 < |a|;
    var hi1 := if lo1 + 1 < |a| then lo1 + 1 else |a| - 1;
    if lo1 == lo2 {
      var d := a[hi1] - a[lo1];
      var g1, g2 := h1 - lo1 as real, h2 - lo1 as real;
      assert 0.0 <= d;
      assert 0.0 <= (g2 - g1) * d;
      assert g1 * d <= g2 * d;
    } else {
      assert Interpolate(a, h1) <= a[hi1] <= a[lo2] <= Interpolate(a, h2);
    }
  }

  /** A higher percentile is never smaller. */
  lemma QuantileMonotone(s: seq<real>, q1: real, q2: real)
    requires |s| > 0 && 0.0 <= q1 <= q2 <= 1.0
    ensures Quantile(s, q1) <= Quantile(s, q2)
  {
    var n1 := (|s| - 1) as real;
    ScaledPosition(q2 - q1, n1);
    assert Position(q1, |s|) <= Position(q2, |s|);
    InterpolateMonotone(Sort(s), Position(q1, |s|), Position(q2, |s|));
  }

  /** `calculate_var(series, confidence_level)`: `np.percentile(series,
      confidence_level * 100)`, or 0.0 when numpy raises (no returns, or a
      percentile outside [0, 100]). */
  function CalculateVar(series: seq<real>, confidenceLevel: real): (v: real)
    ensures |series| == 0 || !(0.0 <= confidenceLevel <= 1.0) ==> v == 0.0
    ensures |series| > 0 && 0.0 <= confidenceLevel <= 1.0 ==> Min(series) <= v <= Max(series)
  {
    if |series| == 0 || !(0.0 <= confidenceLevel <= 1.0) then 0.0
    else Quantile(series, confidenceLevel)
  }

  /** A higher level gives a VaR at least as high, within the levels numpy
      accepts. */
  lemma VarMonotone(series: seq<real>, c1: real, c2: real)
    requires |series| > 0 && 0.0 <= c1 <= c2 <= 1.0
    ensures CalculateVar(series, c1) <= CalculateVar(series, c2)
  {
    QuantileMonotone(series, c1, c2);
  }

  /** `returns[returns <= v]`: the returns at or below `v`, in their order. */
  function Tail(s: seq<real>, v: real): (t: seq<real>)
    ensures forall i | 0 <= i < |t| :: t[i] <= v
    ensures forall i | 0 <= i < |t| :: t[i] in s
    ensures (exists i | 0 <= i < |s| :: s[i] <= v) ==> |t| > 0
  {
    if s == [] then []
    else
      assert s == [s[0]] + s[1..];
      assert forall i | 1 <= i < |s| :: s[i] == s[1..][i - 1];
      (if s[0] <= v then [s[0]] else []) + Tail(s[1..], v)
  }

  /** `calculate_cvar(series, confidence_level)`: the mean of the returns at
      or below the VaR; None when no return qualifies (pandas' NaN). */
  function CalculateCVaR(series: seq<real>, confidenceLevel: real): (c: Option<real>)
    ensures c.None? <==> Tail(series, CalculateVar(series, confidenceLevel)) == []
  {
    var t := Tail(series, CalculateVar(series, confidenceLevel));
    if t == [] then None else Some(Mean(t))
  }

  /** For a non-empty series and a valid level, the tail below VaR always holds
      the smallest return, so CVaR is a number, at least the smallest return
      and at most VaR. */
  lemma CVaRAtMostVaR(series: seq<real>, confidenceLevel: real)
    requires |series| > 0 && 0.0 <= confidenceLevel <= 1.0
    ensures CalculateCVaR(series, confidenceLevel).Some?
    ensures Min(series) <= CalculateCVaR(series, confidenceLevel).value
                         <= CalculateVar(series, confidenceLevel)
  {
    var v := CalculateVar(series, confidenceLevel);
    var lo := Min(series);
    var t := Tail(series, v);
    var i :| 0 <= i < |series| && series[i] == lo;
    assert |t| > 0;
    forall j | 0 <= j < |t| ensures lo <= t[j] <= v {
      assert t[j] in series;
    }
    MeanWithin(t, lo, v);
  }

  /** `calculate_max_drawdown(series)`: NaN (None) for no returns; while
      every return exceeds -100%, a number in (-1, 0]. */
  function CalculateMaxDrawdown(series: seq<real>): (dd: Option<real>)
    ensures series == [] ==> dd.None?
    ensures |series| > 0 && (forall i | 0 <= i < |series| :: series[i] > -1.0) ==>
      dd.Some? && -1.0 < dd.value <= 0.0
  {
    if |series| > 0 && forall i | 0 <= i < |series| :: series[i] > -1.0 then
      Drawdown.MaxDrawdownRange(series);
      Drawdown.MaxDrawdown(series)
    else Drawdown.MaxDrawdown(series)
  }

  /** The fields of `assess_portfolio_risk` that do not need a square root. */
  datatype RiskAssessment = RiskAssessment(var95: real, cvar95: Option<real>, maxDrawdown: Option<real>)

  /** `assess_portfolio_risk(portfolio_returns)`: VaR and CVaR at the 5% level
      and the maximum drawdown. */
  function AssessPortfolioRisk(portfolioReturns: seq<real>): (a: RiskAssessment)
    ensures a.var95 == CalculateVar(portfolioReturns, 0.05)
    ensures a.cvar95 == CalculateCVaR(portfolioReturns, 0.05)
  {
    RiskAssessment(
      CalculateVar(portfolioReturns, 0.05),
      CalculateCVaR(portfolioReturns, 0.05),
      CalculateMaxDrawdown(portfolioReturns))
  }

  /** The assessment of a non-empty series is internally consistent: VaR lies
      within the observed returns, CVaR is a number no larger than VaR and,
      while no period loses everything, the drawdown is in (-1, 0]. */
  lemma AssessmentConsistent(portfolioReturns: seq<real>)
    requires |portfolioReturns| > 0
    ensures var a := AssessPortfolioRisk(portfolioReturns);
      Min(portfolioReturns) <= a.var95 <= Max(portfolioReturns) &&
      a.cvar95.Some? && a.cvar95.value <= a.var95 &&
      ((forall i | 0 <= i < |portfolioReturns| :: portfolioReturns[i] > -1.0) ==>
         a.maxDrawdown.Some? && -1.0 < a.maxDrawdown.value <= 0.0)
  {
    CVaRAtMostVaR(portfolioReturns, 0.05);
    if forall i | 0 <= i < |portfolioReturns| :: portfolioReturns[i] > -1.0 {
      Drawdown.MaxDrawdownRange(portfolioReturns);
    }
  }

  /** With no returns at all, VaR falls back to 0.0 and CVaR and the drawdown
      are NaN. */
  lemma AssessEmpty()
    ensures AssessPortfolioRisk([]) == RiskAssessment(0.0, None, None)
  {
    assert Tail([], 0.0) == [];
    assert Drawdown.Terms(Drawdown.Curve([]), Drawdown.RunMax(Drawdown.Curve([]))) == [];
  }
}
