/** Opportunity score and tier of a decision, and the score ranges the tier query uses. */
module DecisionModels {
  import opened Builtins
  import opened Wrappers
  import opened SignalFusion

  /** What the score reads from the market context; a missing entry is `None`. */
  datatype Market = Market(price: Option<real>, priceChange: Option<real>, volatility: Option<real>)

  datatype Tier = HOT | GOOD | NEUTRAL | LOW

  // ---- round(x, 2) ----

  /** To the nearest integer, a half to the even one. */
  function RoundHalfEven(x: real): int {
    var f := x.Floor;
    var rest := x - f as real;
    if rest < 0.5 || (rest == 0.5 && f % 2 == 0) then f else f + 1
  }

  function Round2(x: real): real {
    RoundHalfEven(x * 100.0) as real / 100.0
  }

  /** Rounding keeps order, and leaves hundredths alone. */
  lemma Round2IsMonotone(x: real, y: real)
    requires x <= y
    ensures Round2(x) <= Round2(y)
  {
    var a, b := x * 100.0, y * 100.0;
    assert RoundHalfEven(a) <= RoundHalfEven(b);
  }

  lemma Round2KeepsHundredths(n: int)
    ensures Round2(n as real / 100.0) == n as real / 100.0
  {
    assert n as real / 100.0 * 100.0 == n as real;
  }

  lemma Round2Within(x: real, lo: int, hi: int)
    requires lo as real / 100.0 <= x <= hi as real / 100.0
    ensures lo as real / 100.0 <= Round2(x) <= hi as real / 100.0
  {
    Round2IsMonotone(lo as real / 100.0, x);
    Round2IsMonotone(x, hi as real / 100.0);
    Round2KeepsHundredths(lo);
    Round2KeepsHundredths(hi);
  }

  // ---- Score ----

  function AbsOr0(x: Option<real>): real {
    match x
    case Some(v) => if v < 0.0 then -v else v
    case None => 0.0
  }

  function Clamp01(x: real): (r: real)
    ensures 0.0 <= r <= 1.0
  {
    Min(1.0, Max(0.0, x))
  }

  /** `_estimate_expected_return` */
  function ExpectedReturn(action: Action, confidence: real, market: Market): real {
    if action == HOLD then 0.0
    else Times(confidence * 0.05, 1.0 + Min(0.5, AbsOr0(market.priceChange) / 10.0))
  }

  /** `_extract_volatility` */
  function Volatility(market: Market): real {
    if market.volatility.Some? then market.volatility.value else 0.0
  }

  function ReturnPoints(expected: real): real {
    Round2((if expected > 0.0 then Clamp01(expected / 0.05) else 0.0) * 30.0)
  }

  /** The points of the five factors. */
  datatype Factors = Factors(confidence: real, expectedReturn: real, consensus: real, volatility: real, freshness: real)

  function FactorsOf(action: Action, confidence: real, agreement: real, market: Market): Factors {
    var expected, volatility := ExpectedReturn(action, confidence, market), Volatility(market);
    Factors(
      Min(1.0, confidence) * 25.0,
      ReturnPoints(expected),
      Round2(agreement * 20.0),
      Round2((if volatility > 0.0 then Clamp01(volatility / 0.05) else 0.5) * 15.0),
      10.0)
  }

  function Points(f: Factors): real {
    Round2(f.confidence + f.expectedReturn + f.consensus + f.volatility + f.freshness)
  }

  /** `compute_opportunity_tier` */
  function TierOf(score: real): Tier {
    if score >= 80.0 then HOT else if score >= 60.0 then GOOD else if score >= 40.0 then NEUTRAL else LOW
  }

  class AgentDecision {
    const symbol: string
    const action: Action
    const confidence: real
    const agreement: real
    const market: Market
    const approved: bool
    const size: real
    var score: real
    var tier: Tier
    var factors: Factors
    var duplicate: bool

    constructor (symbol: string, fused: FusedSignal, market: Market, approved: bool, size: real)
      ensures this.symbol == symbol && action == fused.action && confidence == fused.confidence
      ensures agreement == fused.agreement && this.market == market && this.approved == approved && this.size == size
      ensures !duplicate
    {
      this.symbol, this.action := symbol, fused.action;
      this.confidence, this.agreement := fused.confidence, fused.agreement;
      this.market, this.approved, this.size := market, approved, size;
      score, tier, factors, duplicate := 0.0, LOW, Factors(0.0, 0.0, 0.0, 0.0, 0.0), false;
    }

    /** Within the range fusion gives to confidence and agreement, the score stays below 100. */
    method ComputeOpportunityScore() returns (total: real)
      modifies this`score, this`tier, this`factors
      ensures factors == FactorsOf(action, confidence, agreement, market)
      ensures total == score == Points(factors) && tier == TierOf(score)
      ensures (tier == HOT <==> score >= 80.0) && (tier == GOOD <==> 60.0 <= score < 80.0)
      ensures (tier == NEUTRAL <==> 40.0 <= score < 60.0) && (tier == LOW <==> score < 40.0)
      ensures 0.30 <= confidence <= 0.95 && 0.0 <= agreement <= 1.0 ==> 17.5 <= score <= 98.75
    {
      factors := FactorsOf(action, confidence, agreement, market);
      total := Points(factors);
      score := total;
      tier := TierOf(total);
      if 0.30 <= confidence <= 0.95 && 0.0 <= agreement <= 1.0 {
        ScoreRange(action, confidence, agreement, market);
      }
    }
  }

  /** The range of the score over everything fusion can produce, degraded or not; both ends are reached. */
  lemma ScoreRange(action: Action, confidence: real, agreement: real, market: Market)
    requires 0.30 <= confidence <= 0.95 && 0.0 <= agreement <= 1.0
    ensures 17.5 <= Points(FactorsOf(action, confidence, agreement, market)) <= 98.75
  {
    var f := FactorsOf(action, confidence, agreement, market);
    var expected, volatility := ExpectedReturn(action, confidence, market), Volatility(market);
    Round2Within((if expected > 0.0 then Clamp01(expected / 0.05) else 0.0) * 30.0, 0, 3000);
    Round2Within(agreement * 20.0, 0, 2000);
    Round2Within((if volatility > 0.0 then Clamp01(volatility / 0.05) else 0.5) * 15.0, 0, 1500);
    Round2Within(f.confidence + f.expectedReturn + f.consensus + f.volatility + f.freshness, 1750, 9875);
  }

  /**
   The score of a fused signal, before its parts are rounded to hundredths: a quarter of it follows the confidence, 30
   points the expected return, which is the confidence raised by up to one half with the size of the price move and is
   0 for HOLD, 20 the agreement, 15 the volatility up to 0.05, half of them if it is missing or not positive, and 10
   are always there.
   */
  lemma ScoreParts(action: Action, confidence: real, agreement: real, market: Market)
    requires 0.0 < confidence <= 1.0
    ensures var f := FactorsOf(action, confidence, agreement, market);
            var move := match market.priceChange case Some(x) => (if x < 0.0 then -x else x) case None => 0.0;
            var raised := Times(confidence, 1.0 + if move < 5.0 then move / 10.0 else 0.5);
            && f.confidence == 25.0 * confidence
            && f.expectedReturn == Round2(if action == HOLD then 0.0 else if raised < 1.0 then 30.0 * raised else 30.0)
            && f.consensus == Round2(20.0 * agreement)
            && f.freshness == 10.0
            && f.volatility == match market.volatility
                               case Some(v) => if v <= 0.0 then 7.5 else if v < 0.05 then Round2(300.0 * v) else 15.0
                               case None => 7.5
    ensures var f := FactorsOf(action, confidence, agreement, market);
            Points(f) == Round2(f.confidence + f.expectedReturn + f.consensus + f.volatility + f.freshness)
  {
    Round2KeepsHundredths(750);
    Round2KeepsHundredths(1500);
    Round2KeepsHundredths(0);
    if action != HOLD {
      ReturnIsRaisedConfidence(action, confidence, market);
    }
  }

  lemma ReturnIsRaisedConfidence(action: Action, confidence: real, market: Market)
    requires 0.0 < confidence <= 1.0 && action != HOLD
    ensures ExpectedReturn(action, confidence, market) / 0.05
         == Times(confidence, 1.0 + Min(0.5, AbsOr0(market.priceChange) / 10.0)) > 0.0
  {
    var factor := 1.0 + Min(0.5, AbsOr0(market.priceChange) / 10.0);
    assert Times(confidence * 0.05, factor) == confidence * factor * 0.05;
  }

  /** Rounding moves a value by half a hundredth at most. */
  lemma Round2IsClose(x: real)
    ensures -0.005 <= Round2(x) - x <= 0.005
  {
  }

  lemma ScoreRangeIsTight()
    ensures Points(FactorsOf(HOLD, 0.30, 0.0, Market(None, None, Some(0.00001)))) == 17.5
    ensures Points(FactorsOf(BUY, 0.95, 1.0, Market(None, Some(5.0), Some(0.05)))) == 98.75
  {
    assert Times(0.95 * 0.05, 1.5) == 0.07125;
  }

  lemma ReturnPointsGrow(action: Action, confidence: real, market: Market, surer: real)
    requires confidence <= surer
    ensures ReturnPoints(ExpectedReturn(action, confidence, market))
         <= ReturnPoints(ExpectedReturn(action, surer, market))
  {
    TimesIsMonotone(confidence * 0.05, surer * 0.05, 1.0 + Min(0.5, AbsOr0(market.priceChange) / 10.0));
    var x, y := ExpectedReturn(action, confidence, market), ExpectedReturn(action, surer, market);
    assert x <= y;
    Round2IsMonotone((if x > 0.0 then Clamp01(x / 0.05) else 0.0) * 30.0,
                     (if y > 0.0 then Clamp01(y / 0.05) else 0.0) * 30.0);
  }

  /** More confidence or more agreement never lowers the score. */
  lemma ScoreIsMonotone(action: Action, confidence: real, agreement: real, market: Market, surer: real, wider: real)
    requires confidence <= surer && agreement <= wider
    ensures Points(FactorsOf(action, confidence, agreement, market)) <= Points(FactorsOf(action, surer, wider, market))
  {
    var f, g := FactorsOf(action, confidence, agreement, market), FactorsOf(action, surer, wider, market);
    assert f.expectedReturn <= g.expectedReturn by {
      ReturnPointsGrow(action, confidence, market, surer);
    }
    assert f.consensus <= g.consensus by {
      Round2IsMonotone(agreement * 20.0, wider * 20.0);
    }
    Round2IsMonotone(f.confidence + f.expectedReturn + f.consensus + f.volatility + f.freshness,
                     g.confidence + g.expectedReturn + g.consensus + g.volatility + g.freshness);
  }

  // ---- get_decisions_by_tier ----

  function RangeOf(tier: Tier): (real, real) {
    match tier
    case HOT => (80.0, 100.0)
    case GOOD => (60.0, 80.0)
    case NEUTRAL => (40.0, 60.0)
    case LOW => (0.0, 40.0)
  }

  /** The WHERE clause: at least the lower end, below the upper. */
  predicate Selected(tier: Tier, score: real) {
    RangeOf(tier).0 <= score < RangeOf(tier).1
  }

  /** The query for each tier selects exactly the scores of that tier if and only if the score lies in [0, 100). */
  lemma TierQueryIsExactIff(score: real)
    ensures (forall tier :: Selected(tier, score) <==> TierOf(score) == tier) <==> 0.0 <= score < 100.0
  {
    if !(0.0 <= score < 100.0) {
      assert !Selected(TierOf(score), score);
    }
  }

  /** So it is exact for every decision built from a fused signal. */
  lemma TierQueryIsExact(action: Action, confidence: real, agreement: real, market: Market, tier: Tier)
    requires 0.30 <= confidence <= 0.95 && 0.0 <= agreement <= 1.0
    ensures var score := Points(FactorsOf(action, confidence, agreement, market));
            Selected(tier, score) <==> TierOf(score) == tier
  {
    ScoreRange(action, confidence, agreement, market);
    TierQueryIsExactIff(Points(FactorsOf(action, confidence, agreement, market)));
  }
}
