/** The compounded-curve drawdown that `RiskManager.calculate_max_drawdown`
    and `PortfolioAnalyzer.calculate_portfolio_metrics` both compute with
    pandas: `cumulative = (1 + r).cumprod()`, `rolling_max =
    cumulative.expanding().max()`, `drawdown = (cumulative - rolling_max) /
    rolling_max`, `drawdown.min()`. */
module Drawdown {
  import opened Wrappers
  import opened Numeric

  /** `1 + r`, element by element. */
  function Growth(r: seq<real>): (g: seq<real>)
    ensures |g| == |r|
  {
    seq(|r|, i requires 0 <= i < |r| => 1.0 + r[i])
  }

  /** `(1 + r).cumprod()`: the value of one unit after each period. */
  function Curve(r: seq<real>): (c: seq<real>)
    ensures |c| == |r|
  {
    seq(|r|, t requires 0 <= t < |r| => Prod(Growth(r)[..t + 1]))
  }

  /** Each point of the curve is the previous one grown by that period's return. */
  lemma CurveStep(r: seq<real>, t: nat)
    requires t < |r|
    ensures Curve(r)[t] == (if t == 0 then 1.0 else Curve(r)[t - 1]) * (1.0 + r[t])
  {
    var g := Growth(r);
    assert g[..t + 1][..t] == g[..t];
    assert Curve(r)[t] == Prod(g[..t + 1]) == Prod(g[..t]) * g[t];
    if t == 0 {
      assert g[..0] == [];
    } else {
      assert Curve(r)[t - 1] == Prod(g[..t]);
    }
  }

  /** `cumulative.expanding().max()`: the highest point reached so far. */
  function RunMax(c: seq<real>): (m: seq<real>)
    ensures |m| == |c|
  {
    seq(|c|, t requires 0 <= t < |c| => Max(c[..t + 1]))
  }

  /** Every point lies at or below the running maximum, and the running
      maximum is one of the points reached so far. */
  lemma RunMaxBounds(c: seq<real>, t: nat)
    requires t < |c|
    ensures c[t] <= RunMax(c)[t]
    ensures forall s | 0 <= s <= t :: c[s] <= RunMax(c)[t]
    ensures exists s | 0 <= s <= t :: c[s] == RunMax(c)[t]
  {
    var p := c[..t + 1];
    assert forall s | 0 <= s <= t :: p[s] == c[s];
  }

  /** `(cumulative - rolling_max) / rolling_max`, keeping only the points
      where it is a number: where the running maximum is 0 pandas produces
      NaN, which `min()` skips. */
  function Terms(c: seq<real>, m: seq<real>): (d: seq<real>)
    requires |c| == |m|
    ensures |d| <= |c|
  {
    if c == [] then []
    else (if m[0] == 0.0 then [] else [(c[0] - m[0]) / m[0]]) + Terms(c[1..], m[1..])
  }

  /** With no zero running maximum every point contributes its term, in order. */
  lemma {:induction false} TermsAll(c: seq<real>, m: seq<real>)
    requires |c| == |m|
    requires forall t | 0 <= t < |m| :: m[t] != 0.0
    ensures |Terms(c, m)| == |c|
    ensures forall t | 0 <= t < |c| :: Terms(c, m)[t] == (c[t] - m[t]) / m[t]
  {
    if c != [] {
      TermsAll(c[1..], m[1..]);
      var rest := Terms(c[1..], m[1..]);
      assert Terms(c, m) == [(c[0] - m[0]) / m[0]] + rest;
    }
  }

  /** The terms are exactly the drawdowns at the points whose running
      maximum is not 0. */
  lemma {:induction false} TermsAre(c: seq<real>, m: seq<real>)
    requires |c| == |m|
    ensures forall x :: x in Terms(c, m) <==> exists t | 0 <= t < |c| && m[t] != 0.0 :: x == (c[t] - m[t]) / m[t]
  {
    if c != [] {
      var c', m' := c[1..], m[1..];
      TermsAre(c', m');
      var head := if m[0] == 0.0 then [] else [(c[0] - m[0]) / m[0]];
      var rest := Terms(c', m');
      assert Terms(c, m) == head + rest;
      forall x ensures x in head + rest <==> exists t | 0 <= t < |c| && m[t] != 0.0 :: x == (c[t] - m[t]) / m[t] {
        if x in head {
          assert m[0] != 0.0 && x == (c[0] - m[0]) / m[0];
        } else if x in rest {
          var t :| 0 <= t < |c'| && m'[t] != 0.0 && x == (c'[t] - m'[t]) / m'[t];
          assert c'[t] == c[t + 1] && m'[t] == m[t + 1];
        }
        if exists t | 0 <= t < |c| && m[t] != 0.0 :: x == (c[t] - m[t]) / m[t] {
          var t :| 0 <= t < |c| && m[t] != 0.0 && x == (c[t] - m[t]) / m[t];
          if t == 0 {
            assert x in head;
          } else {
            assert c'[t - 1] == c[t] && m'[t - 1] == m[t];
            assert x in rest;
          }
        }
      }
    }
  }

  /** No term is left exactly when every running maximum is 0. */
  lemma {:induction false} TermsEmpty(c: seq<real>, m: seq<real>)
    requires |c| == |m|
    ensures Terms(c, m) == [] <==> AllUndefined(m)
  {
    if c != [] {
      var m' := m[1..];
      TermsEmpty(c[1..], m');
      assert forall t | 1 <= t < |c| :: m'[t - 1] == m[t];
    }
  }

  /** `v` is the smallest drawdown `(c[t] - m[t]) / m[t]` over the points
      whose running maximum `m[t]` is not 0, and is attained at one of them. */
  predicate LeastDrawdown(c: seq<real>, m: seq<real>, v: real)
    requires |c| == |m|
  {
    (exists t | 0 <= t < |c| && m[t] != 0.0 :: v == (c[t] - m[t]) / m[t]) &&
    (forall t | 0 <= t < |c| && m[t] != 0.0 :: v <= (c[t] - m[t]) / m[t])
  }

  /** Every running maximum is 0, so every drawdown is NaN. */
  predicate AllUndefined(m: seq<real>) {
    forall t | 0 <= t < |m| :: m[t] == 0.0
  }

  /** The smallest term is the least drawdown. */
  lemma MinOfTerms(c: seq<real>, m: seq<real>)
    requires |c| == |m| && Terms(c, m) != []
    ensures LeastDrawdown(c, m, Min(Terms(c, m)))
  {
    var d := Terms(c, m);
    TermsAre(c, m);
    assert Min(d) in d;
    forall t | 0 <= t < |c| && m[t] != 0.0 ensures Min(d) <= (c[t] - m[t]) / m[t] {
      assert (c[t] - m[t]) / m[t] in d;
    }
  }

  /** `drawdown.min()`, NaN (None) when every drawdown is NaN: otherwise the
      smallest drawdown over the points whose running maximum is not 0. */
  function MaxDrawdown(r: seq<real>): (dd: Option<real>)
    ensures r == [] ==> dd.None?
    ensures dd.None? <==> AllUndefined(RunMax(Curve(r)))
    ensures dd.Some? ==> LeastDrawdown(Curve(r), RunMax(Curve(r)), dd.value)
  {
    var c := Curve(r);
    var d := Terms(c, RunMax(c));
    TermsEmpty(c, RunMax(c));
    if d == [] then None
    else
      MinOfTerms(c, RunMax(c));
      Some(Min(d))
  }

  /** While every return exceeds -100%, the curve stays strictly positive. */
  lemma CurvePositive(r: seq<real>, t: nat)
    requires forall i | 0 <= i < |r| :: r[i] > -1.0
    requires t < |r|
    ensures Curve(r)[t] > 0.0
  {
    var p := Growth(r)[..t + 1];
    assert forall i | 0 <= i < |p| :: p[i] == 1.0 + r[i];
    ProdPositive(p);
  }

  /** One drawdown term: at most 0, above -1, and 0 exactly at the maximum. */
  lemma RatioTerm(c: real, m: real)
    requires 0.0 < c <= m
    ensures -1.0 < (c - m) / m <= 0.0
    ensures (c - m) / m == 0.0 <==> c == m
  {
    var x := (c - m) / m;
    assert x * m == c - m;
    assert (x + 1.0) * m == c;
    PositiveFactor(x + 1.0, m);

  }

  lemma PositiveFactor(a: real, b: real)
    requires b > 0.0 && a * b > 0.0
    ensures a > 0.0
  {
  }

  /** Below a positive running maximum, every point gives a term in (-1, 0],
      0 exactly where the point is at the maximum. */
  lemma {:induction false} TermsRange(c: seq<real>, m: seq<real>)
    requires |c| == |m|
    requires forall t | 0 <= t < |c| :: 0.0 < c[t] <= m[t]
    ensures |Terms(c, m)| == |c|
    ensures forall t | 0 <= t < |c| :: -1.0 < Terms(c, m)[t] <= 0.0
    ensures forall t | 0 <= t < |c| :: Terms(c, m)[t] == 0.0 <==> c[t] == m[t]
  {
    TermsAll(c, m);
    forall t | 0 <= t < |c|
      ensures -1.0 < Terms(c, m)[t] <= 0.0 && (Terms(c, m)[t] == 0.0 <==> c[t] == m[t])
    {
      RatioTerm(c[t], m[t]);
    }
  }

  /** While every return exceeds -100%, the curve lies strictly above 0 and at
      or below its running maximum. */
  lemma PositiveCurve(r: seq<real>)
    requires forall i | 0 <= i < |r| :: r[i] > -1.0
    ensures forall t | 0 <= t < |r| :: 0.0 < Curve(r)[t] <= RunMax(Curve(r))[t]
  {
    forall t | 0 <= t < |r| ensures 0.0 < Curve(r)[t] <= RunMax(Curve(r))[t] {
      CurvePositive(r, t);
      RunMaxBounds(Curve(r), t);
    }
  }

  /** When every return exceeds -100%, the maximum drawdown of a non-empty
      series is a number in (-1, 0]. */
  lemma MaxDrawdownRange(r: seq<real>)
    requires |r| > 0
    requires forall i | 0 <= i < |r| :: r[i] > -1.0
    ensures MaxDrawdown(r).Some?
    ensures -1.0 < MaxDrawdown(r).value <= 0.0
  {
    var c := Curve(r);
    PositiveCurve(r);
    TermsRange(c, RunMax(c));
  }

  /** When every return exceeds -100%, the maximum drawdown is 0 exactly when
      the curve never falls, that is when no period after the first has a
      negative return (the first period starts the running maximum, so its
      return never shows as a drawdown). */
  lemma MaxDrawdownZeroIff(r: seq<real>)
    requires |r| > 0
    requires forall i | 0 <= i < |r| :: r[i] > -1.0
    ensures MaxDrawdown(r) == Some(0.0) <==> forall t | 1 <= t < |r| :: r[t] >= 0.0
  {
    var c := Curve(r);
    PositiveCurve(r);
    TermsMinZero(c, RunMax(c));
    CurveAtMaxIff(r);
  }

  /** The smallest term is 0 exactly when every point is at its running maximum. */
  lemma TermsMinZero(c: seq<real>, m: seq<real>)
    requires |c| == |m| > 0
    requires forall t | 0 <= t < |c| :: 0.0 < c[t] <= m[t]
    ensures |Terms(c, m)| > 0
    ensures Min(Terms(c, m)) == 0.0 <==> forall t | 0 <= t < |c| :: c[t] == m[t]
  {
    TermsRange(c, m);
    var d := Terms(c, m);
    if forall t | 0 <= t < |c| :: c[t] == m[t] {
      assert d[0] == 0.0;
    } else {
      var t :| 0 <= t < |c| && c[t] != m[t];
      assert d[t] < 0.0;
    }
  }

  /** The curve is at its running maximum at every point exactly when no
      period after the first has a negative return. */
  lemma CurveAtMaxIff(r: seq<real>)
    requires forall i | 0 <= i < |r| :: r[i] > -1.0
    ensures (forall t | 0 <= t < |r| :: Curve(r)[t] == RunMax(Curve(r))[t])
        <==> forall t | 1 <= t < |r| :: r[t] >= 0.0
  {
    var c := Curve(r);
    var m := RunMax(c);
    if forall t | 1 <= t < |r| :: r[t] >= 0.0 {
      NonDecreasingCurve(r);
      forall t | 0 <= t < |r| ensures c[t] == m[t] {
        RunMaxBounds(c, t);
        var s :| 0 <= s <= t && c[s] == m[t];
        assert c[s] <= c[t];
      }
    } else {
      var t :| 1 <= t < |r| && r[t] < 0.0;
      CurveStep(r, t);
      CurvePositive(r, t - 1);
      RunMaxBounds(c, t);
      assert c[t - 1] * (1.0 + r[t]) < c[t - 1] * 1.0;
      assert c[t] < m[t];
    }
  }

  /** Non-negative returns after the first make the curve non-decreasing. */
  lemma {:induction false} NonDecreasingCurve(r: seq<real>)
    requires forall i | 0 <= i < |r| :: r[i] > -1.0
    requires forall t | 1 <= t < |r| :: r[t] >= 0.0
    ensures forall s, t | 0 <= s <= t < |r| :: Curve(r)[s] <= Curve(r)[t]
  {
    var c := Curve(r);
    forall t | 1 <= t < |r| ensures c[t - 1] <= c[t] {
      CurveStep(r, t);
      CurvePositive(r, t - 1);
      assert c[t - 1] * (1.0 + r[t]) >= c[t - 1] * 1.0;
    }
    forall s, t | 0 <= s <= t < |r| ensures c[s] <= c[t] {
      ChainUp(c, s, t);
    }
  }

  lemma {:induction false} ChainUp(c: seq<real>, s: nat, t: nat)
    requires s <= t < |c|
    requires forall k | 1 <= k < |c| :: c[k - 1] <= c[k]
    ensures c[s] <= c[t]
    decreases t - s
  {
    if s < t {
      ChainUp(c, s, t - 1);
    }
  }
}
