/** `AIAdvisor` (utils/ai_advisor.py): the rule-based advice. The class holds
    only a constant table, so its methods are modelled as functions, except
    the sentiment tally, which is a loop. */
module AIAdvisor {
  import opened Wrappers
  import opened Text
  import opened Numeric
  import opened OrderedDict

  // ---------------------------------------------------------------------
  // Portfolio recommendation

  /** The rule-of-thumb stock share `(100 - age) / 100`, clamped into
      [0.2, 0.9]. */
  function AgeShare(age: int): (s: real)
    ensures 0.2 <= s <= 0.9
  {
    MaxR(0.2, MinR(0.9, (100 - age) as real / 100.0))
  }

  /** The horizon adjustment: more stocks beyond ten years, fewer under five. */
  function StockBoost(horizon: int): real {
    if horizon > 10 then 0.1 else if horizon < 5 then -0.1 else 0.0
  }

  datatype Allocation = Allocation(stocks: real, bonds: real, cash: real)

  /** The recommended split: stocks clamped into [0.2, 0.9], bonds aiming at
      the rest less 5% and clamped into [0.1, 0.7], cash the remainder. */
  function RecommendedAllocation(age: int, horizon: int): (a: Allocation)
    ensures 0.2 <= a.stocks <= 0.9
    ensures 0.1 <= a.bonds <= 0.7
    ensures a.stocks + a.bonds + a.cash == 1.0
    ensures 0.0 <= a.cash <= 0.1
  {
    var stocks := MinR(0.9, MaxR(0.2, AgeShare(age) + StockBoost(horizon)));
    var bonds := MinR(0.7, MaxR(0.1, 1.0 - stocks - 0.05));
    Allocation(stocks, bonds, 1.0 - stocks - bonds)
  }

  /** The horizon shifts the age share before clamping: between the clamps
      the stock share is the age share plus the boost. */
  lemma HorizonShiftsAgeShare(age: int, horizon: int)
    requires 0.3 <= AgeShare(age) <= 0.8
    ensures RecommendedAllocation(age, horizon).stocks == AgeShare(age) + StockBoost(horizon)
  {
  }

  /** An older investor is never advised more stocks, and a longer horizon
      never gives fewer. */
  lemma StocksMonotone(age1: int, age2: int, horizon1: int, horizon2: int)
    requires age1 <= age2 && horizon1 <= horizon2
    ensures RecommendedAllocation(age2, horizon1).stocks <= RecommendedAllocation(age1, horizon1).stocks
    ensures RecommendedAllocation(age1, horizon1).stocks <= RecommendedAllocation(age1, horizon2).stocks
  {
  }

  /** The 5% cash target is met exactly when the stock share lies in
      [0.25, 0.85], where neither bond clamp applies. */
  lemma CashTarget(age: int, horizon: int)
    ensures var a := RecommendedAllocation(age, horizon);
      a.cash == 0.05 <==> 0.25 <= a.stocks <= 0.85
  {
  }

  datatype Rebalancing = Quarterly | SemiAnnually {
    function Name(): string {
      match this
      case Quarterly => "quarterly"
      case SemiAnnually => "semi-annually"
    }
  }

  datatype PortfolioRecommendation = PortfolioRecommendation(
    riskProfile: string, age: int, horizon: int, allocation: Allocation,
    rationale: string, rebalancing: Rebalancing)

  /** `get_portfolio_recommendation(risk_profile, age, investment_horizon)`. */
  function GetPortfolioRecommendation(riskProfile: string, age: int, horizon: int): (r: PortfolioRecommendation)
    ensures r.allocation == RecommendedAllocation(age, horizon)
    ensures r.rebalancing == Quarterly <==> riskProfile == "aggressive"
    ensures r.riskProfile == riskProfile && r.age == age && r.horizon == horizon
  {
    PortfolioRecommendation(
      riskProfile, age, horizon, RecommendedAllocation(age, horizon),
      "Based on your " + riskProfile + " risk profile, age " + IntToString(age) + ", and "
        + IntToString(horizon) + "-year horizon",
      if riskProfile == "aggressive" then Quarterly else SemiAnnually)
  }

  // ---------------------------------------------------------------------
  // Market sentiment

  datatype Sentiment = Bullish | Bearish | Neutral {
    function Name(): string {
      match this
      case Bullish => "bullish"
      case Bearish => "bearish"
      case Neutral => "neutral"
    }

    /** `_get_sentiment_recommendation(overall_sentiment)`: every label is a
        key of the table, so the fallback text is never given. */
    function Advice(): (a: string)
      ensures Name() in SentimentAdvice && a == SentimentAdvice[Name()]
      ensures a != FallbackAdvice
    {
      RecommendationFor(Name())
    }
  }

  /** The `recommendations` table of `_get_sentiment_recommendation`. */
  const SentimentAdvice: map<string, string> := map[
    "bullish" := "Consider increasing equity allocation and look for growth opportunities",
    "bearish" := "Consider defensive positioning and focus on quality assets",
    "neutral" := "Maintain current allocation and focus on diversification"]

  const FallbackAdvice: string := "Maintain balanced approach"

  /** `recommendations.get(sentiment, "Maintain balanced approach")`. */
  function RecommendationFor(sentiment: string): string {
    if sentiment in SentimentAdvice then SentimentAdvice[sentiment] else FallbackAdvice
  }

  /** One line of `signals`. */
  datatype MomentumSignal = Rising(symbol: string) | Falling(symbol: string) {
    function Text(): string {
      match this
      case Rising(s) => s + " showing strong positive momentum"
      case Falling(s) => s + " showing negative momentum"
    }
  }

  /** The result of `analyze_market_sentiment`; the failure answer has no
      score and no recommendation. */
  datatype SentimentReport = SentimentReport(
    overall: Sentiment, score: Option<int>, signals: seq<MomentumSignal>, recommendation: Option<string>)

  const SentimentFailure := SentimentReport(Neutral, None, [], None)

  /** Every close of every symbol is positive. */
  predicate PositiveCloses(data: Dict<seq<real>>) {
    forall i, j | 0 <= i < |data| && 0 <= j < |data[i].1| :: data[i].1[j] > 0.0
  }

  /** The change in percent from the fifth-last close to the last one. */
  function RecentChange(closes: seq<real>): real
    requires |closes| >= 5 && closes[|closes| - 5] > 0.0
  {
    ((closes[|closes| - 1] / closes[|closes| - 5]) - 1.0) * 100.0
  }

  /** A symbol with some history but fewer than five closes, on which
      `iloc[-5]` raises. */
  predicate TooShort(closes: seq<real>) {
    1 <= |closes| < 5
  }

  /** Some symbol has one to four closes. */
  predicate HasShortHistory(data: Dict<seq<real>>) {
    exists i | 0 <= i < |data| :: TooShort(data[i].1)
  }

  predicate IsUp(closes: seq<real>)
    requires forall j | 0 <= j < |closes| :: closes[j] > 0.0
  {
    |closes| >= 5 && RecentChange(closes) > 2.0
  }

  predicate IsDown(closes: seq<real>)
    requires forall j | 0 <= j < |closes| :: closes[j] > 0.0
  {
    |closes| >= 5 && RecentChange(closes) < -2.0
  }

  /** The running score of the loop: +1 for each rising symbol, -1 for each
      falling one. */
  function Score(data: Dict<seq<real>>): int
    requires PositiveCloses(data)
  {
    if data == [] then 0
    else
      var last := data[|data| - 1].1;
      Score(data[..|data| - 1]) + (if IsUp(last) then 1 else if IsDown(last) then -1 else 0)
  }

  /** The signals of the loop, one per rising or falling symbol, in order. */
  function Signals(data: Dict<seq<real>>): seq<MomentumSignal>
    requires PositiveCloses(data)
  {
    if data == [] then []
    else
      var (symbol, last) := data[|data| - 1];
      Signals(data[..|data| - 1])
        + (if IsUp(last) then [Rising(symbol)] else if IsDown(last) then [Falling(symbol)] else [])
  }

  /** How many symbols rise beyond 2%, and how many fall beyond -2%. */
  function Ups(data: Dict<seq<real>>): nat
    requires PositiveCloses(data)
  {
    if data == [] then 0 else (if IsUp(data[0].1) then 1 else 0) + Ups(data[1..])
  }

  function Downs(data: Dict<seq<real>>): nat
    requires PositiveCloses(data)
  {
    if data == [] then 0 else (if IsDown(data[0].1) then 1 else 0) + Downs(data[1..])
  }

  /** Counting from the front agrees with counting from the back. */
  lemma {:induction false} CountsSnoc(data: Dict<seq<real>>)
    requires PositiveCloses(data) && |data| > 0
    ensures var last := data[|data| - 1].1;
      Ups(data) == Ups(data[..|data| - 1]) + (if IsUp(last) then 1 else 0) &&
      Downs(data) == Downs(data[..|data| - 1]) + (if IsDown(last) then 1 else 0)
  {
    if |data| > 1 {
      var init := data[..|data| - 1];
      assert data[1..][..|data| - 2] == init[1..];
      assert data[1..][|data| - 2] == data[|data| - 1];
      CountsSnoc(data[1..]);
      assert init[0] == data[0];
    }
  }

  /** The score is the number of rising symbols less the number of falling
      ones, and there is one signal for each of them. */
  lemma {:induction false} ScoreCounts(data: Dict<seq<real>>)
    requires PositiveCloses(data)
    ensures Score(data) == Ups(data) - Downs(data)
    ensures |Signals(data)| == Ups(data) + Downs(data)
  {
    if data != [] {
      ScoreCounts(data[..|data| - 1]);
      CountsSnoc(data);
    }
  }

  /** A symbol has a rising signal exactly when it rises beyond 2%. */
  lemma {:induction false} RisingIff(data: Dict<seq<real>>, symbol: string)
    requires PositiveCloses(data)
    ensures Rising(symbol) in Signals(data) <==>
      exists i | 0 <= i < |data| :: data[i].0 == symbol && IsUp(data[i].1)
  {
    if data != [] {
      var init := data[..|data| - 1];
      var (s, last) := data[|data| - 1];
      var tail := if IsUp(last) then [Rising(s)] else if IsDown(last) then [Falling(s)] else [];
      assert Signals(data) == Signals(init) + tail;
      RisingIff(init, symbol);
      assert forall i | 0 <= i < |init| :: init[i] == data[i];
    }
  }

  /** A symbol has a falling signal exactly when it falls beyond -2%. */
  lemma {:induction false} FallingIff(data: Dict<seq<real>>, symbol: string)
    requires PositiveCloses(data)
    ensures Falling(symbol) in Signals(data) <==>
      exists i | 0 <= i < |data| :: data[i].0 == symbol && IsDown(data[i].1)
  {
    if data != [] {
      var init := data[..|data| - 1];
      var (s, last) := data[|data| - 1];
      var tail := if IsUp(last) then [Rising(s)] else if IsDown(last) then [Falling(s)] else [];
      assert Signals(data) == Signals(init) + tail;
      FallingIff(init, symbol);
      assert forall i | 0 <= i < |init| :: init[i] == data[i];
    }
  }

  /** `analyze_market_sentiment(market_data)` over each symbol's closes,
      oldest first: the failure answer as soon as a symbol has one to four
      closes, otherwise the label by the sign of the score. */
  function SentimentOf(data: Dict<seq<real>>): (r: SentimentReport)
    requires PositiveCloses(data)
    ensures r.score.None? <==> HasShortHistory(data)
    ensures r.score.None? ==> r == SentimentFailure
    ensures r.score.Some? ==> r.score.value == Ups(data) - Downs(data)
                              && |r.signals| == Ups(data) + Downs(data)
    ensures r.overall == Bullish <==> r.score.Some? && Ups(data) > Downs(data)
    ensures r.overall == Bearish <==> r.score.Some? && Ups(data) < Downs(data)
    ensures r.recommendation == if r.score.Some? then Some(r.overall.Advice()) else None
  {
    if HasShortHistory(data) then SentimentFailure
    else
      var score := Score(data);
      ScoreCounts(data);
      var overall := if score > 0 then Bullish else if score < 0 then Bearish else Neutral;
      SentimentReport(overall, Some(score), Signals(data), Some(overall.Advice()))
  }

  /** The loop of lines 72-97: tally each symbol's recent change, failing
      on the first symbol with one to four closes. */
  method AnalyzeMarketSentiment(data: Dict<seq<real>>) returns (r: SentimentReport)
    requires PositiveCloses(data)
    ensures r == SentimentOf(data)
  {
    var score := 0;
    var signals: seq<MomentumSignal> := [];
    var i := 0;
    while i < |data|
      invariant 0 <= i <= |data|
      invariant forall k | 0 <= k < i :: !TooShort(data[k].1)
      invariant score == Score(data[..i]) && signals == Signals(data[..i])
    {
      var (symbol, closes) := data[i];
      assert data[..i + 1][..i] == data[..i];
      if |closes| > 0 {
        if |closes| < 5 {
          assert TooShort(data[i].1);
          return SentimentFailure;
        }
        var change := ((closes[|closes| - 1] / closes[|closes| - 5]) - 1.0) * 100.0;
        if change > 2.0 {
          score := score + 1;
          signals := signals + [Rising(symbol)];
        } else if change < -2.0 {
          score := score - 1;
          signals := signals + [Falling(symbol)];
        }
      }
      i := i + 1;
    }
    assert data[..i] == data;
    assert !HasShortHistory(data);
    var overall := if score > 0 then Bullish else if score < 0 then Bearish else Neutral;
    r := SentimentReport(overall, Some(score), signals, Some(overall.Advice()));
  }

  // ---------------------------------------------------------------------
  // Financial advice rules

  /** The profile entries the rules read; an absent entry is `None`. */
  datatype UserProfile = UserProfile(
    monthlyExpenses: Option<real>, emergencyFund: Option<real>, totalDebt: Option<real>,
    monthlyIncome: Option<real>, age: Option<int>, riskTolerance: Option<string>,
    annualIncome: Option<real>, dependents: Option<int>)

  const EmptyProfile := UserProfile(None, None, None, None, None, None, None, None)

  datatype FundAdvice = FundAdequate | FundBuildToSix | FundPriority {
    function Text(): string {
      match this
      case FundAdequate => "Your emergency fund is adequate (6+ months of expenses)"
      case FundBuildToSix => "Consider building your emergency fund to 6 months of expenses"
      case FundPriority => "Priority: Build emergency fund to at least 3-6 months of expenses"
    }

    function Rank(): nat {
      match this
      case FundPriority => 0
      case FundBuildToSix => 1
      case FundAdequate => 2
    }
  }

  /** `_assess_emergency_fund`: six months of expenses or more is adequate,
      three or more asks for six; absent entries count as 0. */
  function AssessEmergencyFund(p: UserProfile): (a: FundAdvice)
    ensures var expenses := p.monthlyExpenses.GetOr(0.0); var fund := p.emergencyFund.GetOr(0.0);
      (a == FundAdequate <==> fund >= expenses * 6.0) &&
      (a == FundBuildToSix <==> expenses * 3.0 <= fund < expenses * 6.0)
  {
    var expenses := p.monthlyExpenses.GetOr(0.0);
    var fund := p.emergencyFund.GetOr(0.0);
    if fund >= expenses * 6.0 then FundAdequate
    else if fund >= expenses * 3.0 then FundBuildToSix
    else FundPriority
  }

  /** With non-negative expenses, a larger fund never gets worse advice. */
  lemma FundAdviceMonotone(p: UserProfile, q: UserProfile)
    requires p.monthlyExpenses == q.monthlyExpenses && p.monthlyExpenses.GetOr(0.0) >= 0.0
    requires p.emergencyFund.GetOr(0.0) <= q.emergencyFund.GetOr(0.0)
    ensures AssessEmergencyFund(p).Rank() <= AssessEmergencyFund(q).Rank()
  {
  }

  /** Debt against a year of income; 0 when the monthly income (1 if
      absent) is not positive. */
  function DebtToIncome(p: UserProfile): real {
    var debt := p.totalDebt.GetOr(0.0);
    var income := p.monthlyIncome.GetOr(1.0);
    if income > 0.0 then debt / (income * 12.0) else 0.0
  }

  datatype DebtAdvice = HighDebt | ModerateDebt | ManageableDebt {
    function Text(): string {
      match this
      case HighDebt => "High debt-to-income ratio. Focus on debt reduction strategies"
      case ModerateDebt => "Moderate debt levels. Consider debt consolidation or acceleration"
      case ManageableDebt => "Debt levels are manageable. Focus on preventing new debt"
    }
  }

  /** `_assess_debt_situation`: a ratio above 0.4 is high, above 0.2 moderate. */
  function AssessDebtSituation(p: UserProfile): (a: DebtAdvice)
    ensures a == HighDebt <==> DebtToIncome(p) > 0.4
    ensures a == ModerateDebt <==> 0.2 < DebtToIncome(p) <= 0.4
  {
    var ratio := DebtToIncome(p);
    if ratio > 0.4 then HighDebt else if ratio > 0.2 then ModerateDebt else ManageableDebt
  }

  /** In terms of the monthly income: debt above 4.8 months of income is
      high, above 2.4 moderate; without a positive income debt is always
      manageable. */
  lemma DebtAdviceByIncome(p: UserProfile)
    ensures p.monthlyIncome.GetOr(1.0) > 0.0 ==>
      (AssessDebtSituation(p) == HighDebt <==> p.totalDebt.GetOr(0.0) > 4.8 * p.monthlyIncome.GetOr(1.0))
    ensures p.monthlyIncome.GetOr(1.0) > 0.0 ==>
      (AssessDebtSituation(p) == ModerateDebt <==>
         2.4 * p.monthlyIncome.GetOr(1.0) < p.totalDebt.GetOr(0.0) <= 4.8 * p.monthlyIncome.GetOr(1.0))
    ensures p.monthlyIncome.GetOr(1.0) <= 0.0 ==> AssessDebtSituation(p) == ManageableDebt
  {
    var debt := p.totalDebt.GetOr(0.0);
    var income := p.monthlyIncome.GetOr(1.0);
    if income > 0.0 {
      var ratio := debt / (income * 12.0);
      assert ratio * (income * 12.0) == debt;
      assert ratio > 0.4 <==> debt > 4.8 * income;
      assert ratio > 0.2 <==> debt > 2.4 * income;
    }
  }

  datatype StrategyAdvice = GrowthFocus(tolerance: string) | BalancedFocus(tolerance: string) | IncomeFocus(tolerance: string) {
    function Text(): string {
      match this
      case GrowthFocus(t) => "Focus on growth investments with " + t + " risk approach"
      case BalancedFocus(t) => "Balanced growth and income strategy with " + t + " risk"
      case IncomeFocus(t) => "Income-focused strategy with capital preservation, " + t + " risk"
    }
  }

  /** `_recommend_investment_strategy`: growth under 35, balanced under 55,
      income otherwise (age 30 and tolerance "moderate" if absent). */
  function RecommendInvestmentStrategy(p: UserProfile): (a: StrategyAdvice)
    ensures a.tolerance == p.riskTolerance.GetOr("moderate")
    ensures a.GrowthFocus? <==> p.age.GetOr(30) < 35
    ensures a.BalancedFocus? <==> 35 <= p.age.GetOr(30) < 55
  {
    var age := p.age.GetOr(30);
    var tolerance := p.riskTolerance.GetOr("moderate");
    if age < 35 then GrowthFocus(tolerance)
    else if age < 55 then BalancedFocus(tolerance)
    else IncomeFocus(tolerance)
  }

  datatype TaxAdvice = HighIncomeTax | MiddleIncomeTax | BasicTax {
    function Text(): string {
      match this
      case HighIncomeTax => "Consider tax-advantaged accounts, tax-loss harvesting, and municipal bonds"
      case MiddleIncomeTax => "Maximize 401(k) contributions and consider Roth IRA conversions"
      case BasicTax => "Focus on tax-advantaged retirement accounts and tax credits"
    }
  }

  /** `_suggest_tax_strategies`: by annual income above 100000, above 50000. */
  function SuggestTaxStrategies(p: UserProfile): (a: TaxAdvice)
    ensures a == HighIncomeTax <==> p.annualIncome.GetOr(0.0) > 100000.0
    ensures a == MiddleIncomeTax <==> 50000.0 < p.annualIncome.GetOr(0.0) <= 100000.0
  {
    var income := p.annualIncome.GetOr(0.0);
    if income > 100000.0 then HighIncomeTax else if income > 50000.0 then MiddleIncomeTax else BasicTax
  }

  datatype InsuranceAdvice = DependentsCover | LaterLifeCover | BasicCover {
    function Text(): string {
      match this
      case DependentsCover => "Life and disability insurance are essential with dependents"
      case LaterLifeCover => "Consider life insurance and long-term care coverage"
      case BasicCover => "Basic health and disability insurance should be priorities"
    }
  }

  /** `_assess_insurance_needs`: dependents first, then age over 40. */
  function AssessInsuranceNeeds(p: UserProfile): (a: InsuranceAdvice)
    ensures a == DependentsCover <==> p.dependents.GetOr(0) > 0
    ensures a == LaterLifeCover <==> p.dependents.GetOr(0) <= 0 && p.age.GetOr(30) > 40
  {
    if p.dependents.GetOr(0) > 0 then DependentsCover
    else if p.age.GetOr(30) > 40 then LaterLifeCover
    else BasicCover
  }

  datatype FinancialAdvice = FinancialAdvice(
    emergencyFund: FundAdvice, debtManagement: DebtAdvice, investmentStrategy: StrategyAdvice,
    taxOptimization: TaxAdvice, insuranceNeeds: InsuranceAdvice)

  /** `generate_financial_advice(user_profile)`: each entry is filled by its
      own rule, all five reading the same profile. */
  function GenerateFinancialAdvice(p: UserProfile): (a: FinancialAdvice)
    ensures a.emergencyFund == AssessEmergencyFund(p)
    ensures a.debtManagement == AssessDebtSituation(p)
    ensures a.investmentStrategy == RecommendInvestmentStrategy(p)
    ensures a.taxOptimization == SuggestTaxStrategies(p)
    ensures a.insuranceNeeds == AssessInsuranceNeeds(p)
  {
    FinancialAdvice(AssessEmergencyFund(p), AssessDebtSituation(p), RecommendInvestmentStrategy(p),
                    SuggestTaxStrategies(p), AssessInsuranceNeeds(p))
  }

  /** An empty profile is told its emergency fund is adequate (0 is at least
      six months of 0 expenses), its debt manageable, and to focus on growth
      at moderate risk with basic tax and insurance steps. */
  lemma EmptyProfileAdvice()
    ensures GenerateFinancialAdvice(EmptyProfile) ==
      FinancialAdvice(FundAdequate, ManageableDebt, GrowthFocus("moderate"), BasicTax, BasicCover)
  {
  }
}
