/** What a backtest run means: its equity, ledger, drawdown and position, against definitions that do not simulate. */
module BacktestTheorems {
  import opened Builtins
  import opened Wrappers
  import opened Ratios
  import opened BacktestSignals
  import opened BacktestEngine

  predicate PositiveCloses(candles: seq<Candle>) {
    forall i :: 0 <= i < |candles| ==> candles[i].close > 0.0
  }

  /** Capital compounded over every candle that was entered with a position open. */
  function Equity(candles: seq<Candle>, signals: seq<int>, initial: real, k: nat): real
    requires k <= |candles| == |signals| && PositiveCloses(candles)
  {
    if k == 0 then initial
    else if OpenSince(signals, k - 1).Some? then
      Scaled(Equity(candles, signals, initial, k - 1), candles[k - 1].close, candles[k - 2].close)
    else Equity(candles, signals, initial, k - 1)
  }

  lemma {:induction false} EquityPositive(candles: seq<Candle>, signals: seq<int>, initial: real, k: nat)
    requires k <= |candles| == |signals| && PositiveCloses(candles) && initial > 0.0
    ensures Equity(candles, signals, initial, k) > 0.0
  {
    if k > 0 {
      EquityPositive(candles, signals, initial, k - 1);
      if OpenSince(signals, k - 1).Some? {
        ScaledPositive(Equity(candles, signals, initial, k - 1), candles[k - 1].close, candles[k - 2].close);
      }
    }
  }

  // ---- The simulated equity is the compounded equity ----

  /** How capital and position represent the equity `equity` at the price `price`. */
  ghost predicate Represents(capital: real, position: Option<Position>, equity: real, price: real) {
    match position
    case None => capital == equity
    case Some(p) =>
      && capital > 0.0 && p.entryPrice > 0.0 && p.quantity == capital / p.entryPrice
      && Scaled(capital, price, p.entryPrice) == equity
  }

  /** What one candle does to the equity a state represents. */
  lemma {:induction false} ActKeepsValue(s: Sim, c: Candle, signal: int, before: real, price: real)
    requires Represents(s.capital, s.position, before, price) && price > 0.0 && c.close > 0.0 && before > 0.0
    ensures var after := if s.position.Some? then Scaled(before, c.close, price) else before;
            var s' := Act(s, c, signal);
            && Represents(s'.capital, s'.position, after, c.close)
            && CurrentEquity(s'.capital, s'.position, c.close) == after
  {
    if s.position.Some? {
      var p := s.position.value;
      InvestedValue(s.capital, p.entryPrice, c.close);
      ScaledTwice(s.capital, p.entryPrice, price, c.close);
    } else {
      InvestedValue(s.capital, c.close, c.close);
      ScaledToItself(s.capital, c.close);
    }
  }

  /** The price at which a state after `k` candles is valued. */
  function PriceAt(candles: seq<Candle>, k: nat): real
    requires k <= |candles|
  {
    if k == 0 then 1.0 else candles[k - 1].close
  }

  lemma {:induction false} SimulationRepresentsEquity(candles: seq<Candle>, signals: seq<int>, initial: real, k: nat)
    requires k <= |candles| == |signals| && PositiveCloses(candles) && initial > 0.0
    ensures var s := Simulate(candles, signals, initial, k);
            && Represents(s.capital, s.position, Equity(candles, signals, initial, k), PriceAt(candles, k))
            && s.previous == Equity(candles, signals, initial, k)
            && (s.position.Some? <==> OpenSince(signals, k).Some?)
  {
    if k > 0 {
      SimulationRepresentsEquity(candles, signals, initial, k - 1);
      EquityPositive(candles, signals, initial, k - 1);
      var s, c := Simulate(candles, signals, initial, k - 1), candles[k - 1];
      ActKeepsValue(s, c, signals[k - 1], Equity(candles, signals, initial, k - 1), PriceAt(candles, k - 1));
    }
  }

  /** The equities of a run: the initial capital, then one value per candle. */
  function Equities(candles: seq<Candle>, signals: seq<int>, initial: real, k: nat): (e: seq<real>)
    requires k <= |candles| == |signals| && PositiveCloses(candles)
    ensures |e| == k + 1
    ensures forall j :: 0 <= j <= k ==> e[j] == Equity(candles, signals, initial, j)
  {
    if k == 0 then [initial]
    else Equities(candles, signals, initial, k - 1) + [Equity(candles, signals, initial, k)]
  }

  /** The curve has one point per candle so far, with the candle's time and the next of the values. */
  ghost predicate CurveFollows(curve: seq<EquityPoint>, candles: seq<Candle>, values: seq<real>) {
    && |values| == |curve| + 1 <= |candles| + 1
    && (forall j :: 0 <= j < |curve| ==> curve[j].timestamp == candles[j].timestamp && curve[j].equity == values[j + 1])
  }

  lemma CurveStep(curve: seq<EquityPoint>, candles: seq<Candle>, values: seq<real>, p: EquityPoint)
    requires CurveFollows(curve, candles, values) && |curve| < |candles| && p.timestamp == candles[|curve|].timestamp
    ensures CurveFollows(curve + [p], candles, values + [p.equity])
  {
  }

  lemma TrackExtendsCurve(s: Sim, c: Candle, signal: int) returns (p: EquityPoint)
    ensures var t := Track(Act(s, c, signal), c);
            t.curve == s.curve + [p] && t.previous == p.equity && p.timestamp == c.timestamp
  {
    p := Track(Act(s, c, signal), c).curve[|s.curve|];
  }

  lemma {:induction false} PreviousIsEquity(candles: seq<Candle>, signals: seq<int>, initial: real, k: nat)
    requires k <= |candles| == |signals| && PositiveCloses(candles) && initial > 0.0
    ensures Simulate(candles, signals, initial, k).previous == Equity(candles, signals, initial, k) > 0.0
  {
    SimulationRepresentsEquity(candles, signals, initial, k);
    EquityPositive(candles, signals, initial, k);
  }

  lemma {:induction false} CurveFollowsEquities(candles: seq<Candle>, signals: seq<int>, initial: real, k: nat)
    requires k <= |candles| == |signals| && PositiveCloses(candles) && initial > 0.0
    ensures CurveFollows(Simulate(candles, signals, initial, k).curve, candles, Equities(candles, signals, initial, k))
  {
    if k > 0 {
      CurveFollowsEquities(candles, signals, initial, k - 1);
      PreviousIsEquity(candles, signals, initial, k);
      var s := Simulate(candles, signals, initial, k - 1);
      var p := TrackExtendsCurve(s, candles[k - 1], signals[k - 1]);
      CurveStep(s.curve, candles, Equities(candles, signals, initial, k - 1), p);
    }
  }

  /** Every point of the equity curve is the compounded equity at its candle. */
  lemma {:induction false} CurveIsCompoundedEquity(candles: seq<Candle>, signals: seq<int>, initial: real, k: nat)
    requires k <= |candles| == |signals| && PositiveCloses(candles) && initial > 0.0
    ensures var curve := Simulate(candles, signals, initial, k).curve;
            && |curve| == k
            && (forall j :: 0 <= j < k ==> curve[j].timestamp == candles[j].timestamp)
            && (forall j :: 0 <= j < k ==> curve[j].equity == Equity(candles, signals, initial, j + 1))
  {
    CurveFollowsEquities(candles, signals, initial, k);
  }

  /** The forced close at the end changes nothing: the final capital is the last equity. */
  lemma {:induction false} FinalCapitalIsLastEquity(candles: seq<Candle>, signals: seq<int>, initial: real)
    requires |candles| == |signals| > 0 && PositiveCloses(candles) && initial > 0.0
    ensures var r := ReportOf(candles, signals, initial);
            && |r.curve| == |candles|
            && r.finalCapital == Equity(candles, signals, initial, |candles|) == r.curve[|candles| - 1].equity
  {
    var n := |candles|;
    var s := Simulate(candles, signals, initial, n);
    SimulationRepresentsEquity(candles, signals, initial, n);
    CurveIsCompoundedEquity(candles, signals, initial, n);
    if s.position.Some? {
      InvestedValue(s.capital, s.position.value.entryPrice, candles[n - 1].close);
    }
  }

  // ---- The ledger ----

  /** The product of exit over entry price. */
  function Growth(trades: seq<Trade>): real
    requires forall t :: t in trades ==> t.entryPrice != 0.0
  {
    if trades == [] then 1.0
    else
      var t := trades[|trades| - 1];
      Scaled(Growth(trades[..|trades| - 1]), t.exitPrice, t.entryPrice)
  }

  /** The ledger explains the capital: as a product of price ratios, and as a sum of profits. */
  ghost predicate Explains(trades: seq<Trade>, initial: real, capital: real) {
    && (forall t :: t in trades ==> t.entryPrice > 0.0)
    && capital == Grown(initial, Growth(trades))
    && SumPnl(trades) == capital - initial
  }

  lemma {:induction false} CloseExplains(trades: seq<Trade>, initial: real, capital: real, p: Position, time: int,
                                         price: real)
    requires Explains(trades, initial, capital) && p.entryPrice > 0.0 && p.quantity == capital / p.entryPrice
    ensures Explains(trades + [Closed(p, time, price)], initial, capital + Gain(p, price))
  {
    var t := Closed(p, time, price);
    var all := trades + [t];
    assert all[..|all| - 1] == trades;
    InvestedValue(capital, p.entryPrice, price);
    ScaledProduct(initial, Growth(trades), price, p.entryPrice);
  }

  lemma {:induction false} LedgerExplainsCapital(candles: seq<Candle>, signals: seq<int>, initial: real, k: nat)
    requires k <= |candles| == |signals| && PositiveCloses(candles) && initial > 0.0
    ensures var s := Simulate(candles, signals, initial, k);
            Explains(s.trades, initial, s.capital)
  {
    if k > 0 {
      LedgerExplainsCapital(candles, signals, initial, k - 1);
      SimulationRepresentsEquity(candles, signals, initial, k - 1);
      var s, c := Simulate(candles, signals, initial, k - 1), candles[k - 1];
      if s.position.Some? {
        CloseExplains(s.trades, initial, s.capital, s.position.value, c.timestamp, c.close);
      }
    }
  }

  lemma {:induction false} SumPnlSnoc(trades: seq<Trade>, t: Trade)
    ensures SumPnl(trades + [t]) == SumPnl(trades) + t.pnl
  {
    assert (trades + [t])[..|trades|] == trades;
  }

  /** Profits and losses split the sum of all profits. */
  lemma {:induction false} ProfitsMinusLosses(trades: seq<Trade>)
    ensures SumPnl(trades) == SumPnl(Winners(trades)) + SumPnl(Losers(trades))
    ensures SumPnl(Losers(trades)) <= 0.0 <= SumPnl(Winners(trades))
    ensures |Winners(trades)| + |Losers(trades)| == |trades|
  {
    if trades != [] {
      var init, t := trades[..|trades| - 1], trades[|trades| - 1];
      ProfitsMinusLosses(init);
      if t.pnl > 0.0 {
        SumPnlSnoc(Winners(init), t);
      } else {
        SumPnlSnoc(Losers(init), t);
      }
    }
  }

  lemma {:induction false} SettledLedger(candles: seq<Candle>, signals: seq<int>, initial: real)
    requires |candles| == |signals| > 0 && PositiveCloses(candles) && initial > 0.0
    ensures var r := ReportOf(candles, signals, initial);
            Explains(r.trades, initial, r.finalCapital)
  {
    var n := |candles|;
    var s := Simulate(candles, signals, initial, n);
    LedgerExplainsCapital(candles, signals, initial, n);
    SimulationRepresentsEquity(candles, signals, initial, n);
    if s.position.Some? {
      CloseExplains(s.trades, initial, s.capital, s.position.value, candles[n - 1].timestamp, candles[n - 1].close);
    }
  }

  /**
   The final capital is the initial capital times the product of exit over entry prices, stays positive, and exceeds
   the initial capital by the sum of the trade results, which is gross profit minus gross loss. The win rate is the
   share of profitable trades.
   */
  lemma {:induction false} LedgerExplainsResult(candles: seq<Candle>, signals: seq<int>, initial: real)
    requires |candles| == |signals| > 0 && PositiveCloses(candles) && initial > 0.0
    ensures var r := ReportOf(candles, signals, initial);
            && Explains(r.trades, initial, r.finalCapital) && r.finalCapital > 0.0
            && r.finalCapital - initial == GrossProfit(r.trades) - GrossLoss(r.trades)
            && r.totalReturn == Growth(r.trades) - 1.0
            && 0.0 <= r.winRate <= 1.0
  {
    SettledLedger(candles, signals, initial);
    FinalCapitalIsLastEquity(candles, signals, initial);
    EquityPositive(candles, signals, initial, |candles|);
    LedgerMeans(ReportOf(candles, signals, initial).trades, initial, ReportOf(candles, signals, initial).finalCapital);
  }

  lemma {:induction false} LedgerMeans(trades: seq<Trade>, initial: real, capital: real)
    requires Explains(trades, initial, capital) && initial > 0.0
    ensures capital - initial == GrossProfit(trades) - GrossLoss(trades)
    ensures (capital - initial) / initial == Growth(trades) - 1.0
    ensures 0.0 <= WinRate(trades) <= 1.0
  {
    ProfitsMinusLosses(trades);
    RatioMinusOne(initial, Growth(trades), capital);
    if trades != [] {
      ShareOf(|Winners(trades)|, |trades|);
    }
  }

  lemma WinnersAre(trades: seq<Trade>) returns (won: set<nat>)
    ensures won == set i | 0 <= i < |trades| && trades[i].pnl > 0.0
    ensures |won| == |Winners(trades)|
  {
    won := {};
    for n := 0 to |trades|
      invariant won == set i | 0 <= i < n && trades[i].pnl > 0.0
      invariant |won| == |Winners(trades[..n])|
    {
      assert trades[..n + 1][..n] == trades[..n];
      if trades[n].pnl > 0.0 {
        won := won + {n};
      }
    }
    assert trades[..|trades|] == trades;
  }

  lemma {:induction false} AllOrNoneWon(trades: seq<Trade>)
    ensures |Winners(trades)| == |trades| <==> forall i :: 0 <= i < |trades| ==> trades[i].pnl > 0.0
    ensures |Winners(trades)| == 0 <==> forall i :: 0 <= i < |trades| ==> trades[i].pnl <= 0.0
    ensures |Winners(trades)| <= |trades|
  {
    if trades != [] {
      var init, last := trades[..|trades| - 1], trades[|trades| - 1];
      AllOrNoneWon(init);
      assert trades[|trades| - 1] == last && forall i :: 0 <= i < |init| ==> init[i] == trades[i];
    }
  }

  lemma ShareTimesWhole(part: nat, whole: nat)
    requires whole > 0
    ensures var q := part as real / whole as real;
            q * whole as real == part as real && (q == 1.0 <==> part == whole) && (q == 0.0 <==> part == 0)
  {
  }

  /** The win rate times the number of trades is how many of them won: 1 when all did, 0 when none did. */
  lemma {:induction false} WinRateMeans(trades: seq<Trade>) returns (won: set<nat>)
    ensures won == set i | 0 <= i < |trades| && trades[i].pnl > 0.0
    ensures WinRate(trades) * |trades| as real == |won| as real
    ensures WinRate(trades) == 1.0 <==> trades != [] && forall i :: 0 <= i < |trades| ==> trades[i].pnl > 0.0
    ensures WinRate(trades) == 0.0 <==> forall i :: 0 <= i < |trades| ==> trades[i].pnl <= 0.0
  {
    won := WinnersAre(trades);
    AllOrNoneWon(trades);
    if trades != [] {
      ShareTimesWhole(|Winners(trades)|, |trades|);
    }
  }

  /** What the profit factor is, when no trade lost too. */
  lemma {:induction false} ProfitFactorIs(trades: seq<Trade>)
    ensures SumPnl(trades) == GrossProfit(trades) - GrossLoss(trades)
    ensures GrossLoss(trades) > 0.0 ==> ProfitFactor(trades) * GrossLoss(trades) == GrossProfit(trades)
    ensures GrossLoss(trades) <= 0.0 ==>
              GrossLoss(trades) == 0.0 && ProfitFactor(trades) == if SumPnl(trades) > 0.0 then 999.99 else 0.0
  {
    ProfitsMinusLosses(trades);
  }

  /**
   Once any trade has won or lost, a profit factor of at least 1 means exactly that the trades did not lose on balance.
   */
  lemma {:induction false} ProfitFactorMeans(trades: seq<Trade>)
    requires GrossProfit(trades) > 0.0 || GrossLoss(trades) > 0.0
    ensures ProfitFactor(trades) >= 1.0 <==> SumPnl(trades) >= 0.0
  {
    ProfitsMinusLosses(trades);
    if GrossLoss(trades) > 0.0 {
      QuotientAboveOne(GrossProfit(trades), GrossLoss(trades));
    }
  }

  lemma QuotientAboveOne(x: real, y: real)
    requires y > 0.0
    ensures x / y >= 1.0 <==> x >= y
  {
    var q := x / y;
    assert q * y == x;
    if q >= 1.0 {
      assert (q - 1.0) * y >= 0.0;
    } else {
      assert (1.0 - q) * y > 0.0;
    }
  }

  /** The product of one plus each return. */
  function Compound(rates: seq<real>): real {
    if rates == [] then 1.0 else Compounded(Compound(rates[..|rates| - 1]), rates[|rates| - 1])
  }

  lemma {:induction false} ReturnsCompoundToEquity(candles: seq<Candle>, signals: seq<int>, initial: real, k: nat)
    requires k <= |candles| == |signals| && PositiveCloses(candles) && initial > 0.0
    ensures CompoundsSoFar(Simulate(candles, signals, initial, k), initial, k)
  {
    if k > 0 {
      ReturnsCompoundToEquity(candles, signals, initial, k - 1);
      var s, c := Simulate(candles, signals, initial, k - 1), candles[k - 1];
      PreviousIsEquity(candles, signals, initial, k - 1);
      StepCompounds(s, c, signals[k - 1], initial);
    }
  }

  lemma {:induction false} StepCompounds(s: Sim, c: Candle, signal: int, initial: real)
    requires s.previous > 0.0 && CompoundsTo(s.periodReturns, initial, s.previous)
    ensures CompoundsSoFar(Track(Act(s, c, signal), c), initial, |s.periodReturns| + 1)
  {
    var acted := Act(s, c, signal);
    assert acted.periodReturns == s.periodReturns && acted.previous == s.previous;
    CompoundSnoc(s.periodReturns, initial, s.previous, CurrentEquity(acted.capital, acted.position, c.close));
  }

  ghost predicate CompoundsSoFar(s: Sim, initial: real, k: nat) {
    |s.periodReturns| == k && CompoundsTo(s.periodReturns, initial, s.previous)
  }

  ghost predicate CompoundsTo(rates: seq<real>, initial: real, value: real) {
    Grown(initial, Compound(rates)) == value
  }

  lemma {:induction false} CompoundSnoc(rates: seq<real>, initial: real, previous: real, current: real)
    requires previous > 0.0 && CompoundsTo(rates, initial, previous)
    ensures CompoundsTo(rates + [PeriodReturn(previous, current)], initial, current)
  {
    assert (rates + [PeriodReturn(previous, current)])[..|rates|] == rates;
    GrowthOfReturn(initial, previous, current, Compound(rates));
  }

  /** The product of one plus each period return is the ratio of final to initial capital. */
  lemma {:induction false} ReturnsCompoundToResult(candles: seq<Candle>, signals: seq<int>, initial: real)
    requires |candles| == |signals| > 0 && PositiveCloses(candles) && initial > 0.0
    ensures var r := ReportOf(candles, signals, initial);
            && |r.periodReturns| == |candles|
            && Compound(r.periodReturns) == r.finalCapital / initial
  {
    var s := Simulate(candles, signals, initial, |candles|);
    ReturnsCompoundToEquity(candles, signals, initial, |candles|);
    assert s.previous == ReportOf(candles, signals, initial).finalCapital by {
      SimulationRepresentsEquity(candles, signals, initial, |candles|);
      FinalCapitalIsLastEquity(candles, signals, initial);
    }
    RatioOf(initial, Compound(s.periodReturns), s.previous);
  }

  // ---- Drawdown ----

  /** The quadratic definition: the deepest fall from any value to any value not before it. */
  ghost predicate IsMaxDrawdown(values: seq<real>, d: real)
    requires forall i :: 0 <= i < |values| ==> values[i] > 0.0
  {
    && (forall i, j :: 0 <= i <= j < |values| ==> Drawdown(values[i], values[j]) <= d)
    && (exists i, j :: 0 <= i <= j < |values| && Drawdown(values[i], values[j]) == d)
  }

  ghost predicate IsPeak(values: seq<real>, peak: real) {
    peak in values && forall i :: 0 <= i < |values| ==> values[i] <= peak
  }

  /** One step of the one-pass computation keeps it equal to the quadratic definition. */
  lemma {:induction false} OnePassStep(values: seq<real>, x: real, peak: real, d: real)
    requires x > 0.0 && forall i :: 0 <= i < |values| ==> values[i] > 0.0
    requires IsPeak(values, peak) && IsMaxDrawdown(values, d)
    ensures var peak' := Max(peak, x);
            && peak' > 0.0
            && IsPeak(values + [x], peak')
            && IsMaxDrawdown(values + [x], Max(d, Drawdown(peak', x)))
  {
    var peak', all, n := Max(peak, x), values + [x], |values|;
    var d' := Max(d, Drawdown(peak', x));
    assert all[n] == x;
    forall i, j | 0 <= i <= j <= n
      ensures Drawdown(all[i], all[j]) <= d'
    {
      if j < n {
        assert all[i] == values[i] && all[j] == values[j];
      } else {
        HigherPeakDeeperDrawdown(all[i], peak', x);
      }
    }
    if d' == d {
      var i, j :| 0 <= i <= j < |values| && Drawdown(values[i], values[j]) == d;
      assert Drawdown(all[i], all[j]) == d';
    } else {
      assert peak' in all by {
        assert peak in values;
      }
      var i :| 0 <= i <= n && all[i] == peak';
      assert Drawdown(all[i], all[n]) == d';
    }
  }

  ghost predicate OnePassHolds(values: seq<real>, s: Sim) {
    && (forall j :: 0 <= j < |values| ==> values[j] > 0.0)
    && IsPeak(values, s.peak) && IsMaxDrawdown(values, s.maxDrawdown)
  }

  lemma {:induction false} CandleIsOnePassStep(values: seq<real>, s: Sim, c: Candle, signal: int)
    requires OnePassHolds(values, s) && Track(Act(s, c, signal), c).previous > 0.0
    ensures var t := Track(Act(s, c, signal), c); OnePassHolds(values + [t.previous], t)
  {
    var acted := Act(s, c, signal);
    OnePassStep(values, CurrentEquity(acted.capital, acted.position, c.close), s.peak, s.maxDrawdown);
  }

  lemma {:induction false} OnePassDrawdown(candles: seq<Candle>, signals: seq<int>, initial: real, k: nat)
    requires k <= |candles| == |signals| && PositiveCloses(candles) && initial > 0.0
    ensures OnePassHolds(Equities(candles, signals, initial, k), Simulate(candles, signals, initial, k))
  {
    if k == 0 {
      assert Drawdown(initial, initial) == 0.0;
    } else {
      OnePassDrawdown(candles, signals, initial, k - 1);
      PreviousIsEquity(candles, signals, initial, k);
      CandleIsOnePassStep(Equities(candles, signals, initial, k - 1), Simulate(candles, signals, initial, k - 1),
                          candles[k - 1], signals[k - 1]);
    }
  }

  /**
   The reported maximum drawdown, computed in one pass with a running peak, is the maximum of (E_i - E_j) / E_i over
   all i <= j in the equities from the initial capital on, and lies in [0, 1).
   */
  lemma {:induction false} ReportedDrawdownIsTheMaximum(candles: seq<Candle>, signals: seq<int>, initial: real)
    requires |candles| == |signals| > 0 && PositiveCloses(candles) && initial > 0.0
    ensures var r, values := ReportOf(candles, signals, initial), Equities(candles, signals, initial, |candles|);
            && (forall j :: 0 <= j < |values| ==> values[j] > 0.0)
            && IsDeepestFall(values, r.maxDrawdown)
            && 0.0 <= r.maxDrawdown < 1.0
  {
    OnePassDrawdown(candles, signals, initial, |candles|);
    MaxDrawdownRange(Equities(candles, signals, initial, |candles|), ReportOf(candles, signals, initial).maxDrawdown);
    DrawdownIsFall(Equities(candles, signals, initial, |candles|), ReportOf(candles, signals, initial).maxDrawdown);
  }

  /** The same, with the fall written out. */
  ghost predicate IsDeepestFall(values: seq<real>, d: real)
    requires forall i :: 0 <= i < |values| ==> values[i] > 0.0
  {
    && (forall i, j :: 0 <= i <= j < |values| ==> (values[i] - values[j]) / values[i] <= d)
    && (exists i, j :: 0 <= i <= j < |values| && (values[i] - values[j]) / values[i] == d)
  }

  lemma DrawdownIsFall(values: seq<real>, d: real)
    requires (forall i :: 0 <= i < |values| ==> values[i] > 0.0) && IsMaxDrawdown(values, d)
    ensures IsDeepestFall(values, d)
  {
    forall i, j | 0 <= i <= j < |values|
      ensures (values[i] - values[j]) / values[i] <= d
    {
      assert Drawdown(values[i], values[j]) <= d;
    }
    var i, j :| 0 <= i <= j < |values| && Drawdown(values[i], values[j]) == d;
    assert (values[i] - values[j]) / values[i] == d;
  }

  /** The deepest fall to the last of the values, from any of them. */
  ghost predicate IsFallToLast(values: seq<real>, d: real)
    requires values != [] && forall i :: 0 <= i < |values| ==> values[i] > 0.0
  {
    var last := values[|values| - 1];
    && (forall i :: 0 <= i < |values| ==> (values[i] - last) / values[i] <= d)
    && (exists i :: 0 <= i < |values| && (values[i] - last) / values[i] == d)
  }

  lemma {:induction false} FallFromPeak(values: seq<real>, peak: real)
    requires values != [] && (forall i :: 0 <= i < |values| ==> values[i] > 0.0) && IsPeak(values, peak)
    ensures IsFallToLast(values, Drawdown(peak, values[|values| - 1]))
  {
    var last := values[|values| - 1];
    forall i | 0 <= i < |values|
      ensures Drawdown(values[i], last) <= Drawdown(peak, last)
    {
      HigherPeakDeeperDrawdown(values[i], peak, last);
    }
    var i :| 0 <= i < |values| && values[i] == peak;
    assert (values[i] - last) / values[i] == Drawdown(peak, last);
  }

  lemma {:induction false} LastDrawdownIsFall(candles: seq<Candle>, signals: seq<int>, initial: real, k: nat)
    requires 0 < k <= |candles| == |signals| && PositiveCloses(candles) && initial > 0.0
    ensures var curve, values := Simulate(candles, signals, initial, k).curve, Equities(candles, signals, initial, k);
            && |curve| == k && (forall i :: 0 <= i < |values| ==> values[i] > 0.0)
            && IsFallToLast(values, curve[k - 1].drawdown)
  {
    CurveFollowsEquities(candles, signals, initial, k - 1);
    OnePassDrawdown(candles, signals, initial, k);
    PreviousIsEquity(candles, signals, initial, k);
    FallFromPeak(Equities(candles, signals, initial, k), Simulate(candles, signals, initial, k).peak);
  }

  /** The drawdown of each point of the curve is the deepest fall to it from any equity so far. */
  lemma {:induction false} CurveDrawdownIsFall(candles: seq<Candle>, signals: seq<int>, initial: real, k: nat, j: nat)
    requires j < k <= |candles| == |signals| && PositiveCloses(candles) && initial > 0.0
    ensures var curve := Simulate(candles, signals, initial, k).curve;
            var values := Equities(candles, signals, initial, j + 1);
            && |curve| == k && (forall i :: 0 <= i < |values| ==> values[i] > 0.0)
            && IsFallToLast(values, curve[j].drawdown)
  {
    if j < k - 1 {
      CurveFollowsEquities(candles, signals, initial, k - 1);
      CurveDrawdownIsFall(candles, signals, initial, k - 1, j);
      var p := TrackExtendsCurve(Simulate(candles, signals, initial, k - 1), candles[k - 1], signals[k - 1]);
    } else {
      LastDrawdownIsFall(candles, signals, initial, k);
    }
  }

  lemma {:induction false} MaxDrawdownRange(values: seq<real>, d: real)
    requires forall i :: 0 <= i < |values| ==> values[i] > 0.0
    requires IsMaxDrawdown(values, d)
    ensures 0.0 <= d < 1.0
  {
    var i, j :| 0 <= i <= j < |values| && Drawdown(values[i], values[j]) == d;
    assert Drawdown(values[i], values[i]) == 0.0;
    DrawdownBelowOne(values[i], values[j]);
  }

  // ---- Order of trades ----

  /** Entry and exit candle of each trade closed by a sell within the first `k` candles, from the signals alone. */
  function Spans(signals: seq<int>, k: nat): seq<(nat, nat)>
    requires k <= |signals|
  {
    if k == 0 then []
    else
      var open := OpenSince(signals, k - 1);
      Spans(signals, k - 1) + if signals[k - 1] == -1 && open.Some? then [(open.value, k - 1)] else []
  }

  /** All trades: one still open at the end is closed at the last candle. */
  function AllSpans(signals: seq<int>): seq<(nat, nat)> {
    var n := |signals|;
    Spans(signals, n) + if OpenSince(signals, n).Some? then [(OpenSince(signals, n).value, n - 1)] else []
  }

  ghost predicate Disjoint(spans: seq<(nat, nat)>) {
    forall i, j :: 0 <= i < j < |spans| ==> spans[i].1 < spans[j].0
  }

  lemma {:induction false} SpansInOrder(signals: seq<int>, k: nat)
    requires k <= |signals|
    ensures forall i :: 0 <= i < |Spans(signals, k)| ==> Spans(signals, k)[i].0 < Spans(signals, k)[i].1 < k
    ensures Disjoint(Spans(signals, k))
    ensures OpenSince(signals, k).Some? ==>
              forall i :: 0 <= i < |Spans(signals, k)| ==> Spans(signals, k)[i].1 < OpenSince(signals, k).value
  {
    if k > 0 {
      SpansInOrder(signals, k - 1);
    }
  }

  ghost predicate TradeSpans(t: Trade, candles: seq<Candle>, span: (nat, nat)) {
    && span.0 < |candles| && span.1 < |candles|
    && t.entryTime == candles[span.0].timestamp && t.entryPrice == candles[span.0].close
    && t.exitTime == candles[span.1].timestamp && t.exitPrice == candles[span.1].close
  }

  ghost predicate TradesSpan(trades: seq<Trade>, candles: seq<Candle>, spans: seq<(nat, nat)>) {
    |trades| == |spans| && forall i :: 0 <= i < |trades| ==> TradeSpans(trades[i], candles, spans[i])
  }

  lemma ClosingSpan(trades: seq<Trade>, candles: seq<Candle>, spans: seq<(nat, nat)>, p: Position, entry: nat,
                    exit: nat)
    requires TradesSpan(trades, candles, spans) && entry < |candles| && exit < |candles|
    requires p.entryTime == candles[entry].timestamp && p.entryPrice == candles[entry].close
    ensures TradesSpan(trades + [Closed(p, candles[exit].timestamp, candles[exit].close)], candles,
                       spans + [(entry, exit)])
  {
  }

  lemma CandleTrades(s: Sim, c: Candle, signal: int)
    ensures Track(Act(s, c, signal), c).trades
         == s.trades
            + if signal == -1 && s.position.Some? then [Closed(s.position.value, c.timestamp, c.close)] else []
  {
  }

  lemma {:induction false} LoopTradesSpan(candles: seq<Candle>, signals: seq<int>, initial: real, k: nat)
    requires k <= |candles| == |signals|
    requires forall i :: 0 <= i < k && BuysAt(signals, i) ==> candles[i].close != 0.0
    ensures TradesSpan(Simulate(candles, signals, initial, k).trades, candles, Spans(signals, k))
  {
    if k > 0 {
      var s, before := Simulate(candles, signals, initial, k - 1), Spans(signals, k - 1);
      LoopTradesSpan(candles, signals, initial, k - 1);
      PositionFollowsSignals(candles, signals, initial, k - 1);
      CandleTrades(s, candles[k - 1], signals[k - 1]);
      if signals[k - 1] == -1 && s.position.Some? {
        ClosingSpan(s.trades, candles, before, s.position.value, OpenSince(signals, k - 1).value, k - 1);
      } else {
        assert before + [] == before;
      }
    }
  }

  lemma {:induction false} AllTradesSpan(candles: seq<Candle>, signals: seq<int>, initial: real)
    requires |candles| == |signals| > 0 && initial != 0.0
    requires forall i :: 0 <= i < |candles| && BuysAt(signals, i) ==> candles[i].close != 0.0
    ensures TradesSpan(ReportOf(candles, signals, initial).trades, candles, AllSpans(signals))
  {
    var n := |candles|;
    var s, before := Simulate(candles, signals, initial, n), Spans(signals, n);
    LoopTradesSpan(candles, signals, initial, n);
    PositionFollowsSignals(candles, signals, initial, n);
    if s.position.Some? {
      ClosingSpan(s.trades, candles, before, s.position.value, OpenSince(signals, n).value, n - 1);
    } else {
      assert before + [] == before;
    }
  }

  lemma {:induction false} AllSpansInOrder(signals: seq<int>)
    ensures var spans := AllSpans(signals);
            && Disjoint(spans)
            && (forall i :: 0 <= i < |spans| ==> spans[i].0 <= spans[i].1 < |signals|)
            && (forall i :: 0 <= i < |spans| - 1 ==> spans[i].0 < spans[i].1)
  {
    SpansInOrder(signals, |signals|);
  }

  ghost predicate TimesIncrease(candles: seq<Candle>) {
    forall i, j :: 0 <= i < j < |candles| ==> candles[i].timestamp < candles[j].timestamp
  }

  /**
   Trades are listed in the order they were made and never overlap, candle by candle: each enters strictly after the one
   before it left. Every trade but one forced at the last candle lasts at least one candle. So it is in time, if time
   increases from candle to candle.
   */
  lemma {:induction false} TradesNeverOverlap(candles: seq<Candle>, signals: seq<int>, initial: real)
    requires |candles| == |signals| > 0 && initial != 0.0
    requires forall i :: 0 <= i < |candles| && BuysAt(signals, i) ==> candles[i].close != 0.0
    ensures var trades, spans := ReportOf(candles, signals, initial).trades, AllSpans(signals);
            && TradesSpan(trades, candles, spans) && Disjoint(spans)
            && (forall i :: 0 <= i < |spans| ==> spans[i].0 <= spans[i].1)
            && (forall i :: 0 <= i < |spans| - 1 ==> spans[i].0 < spans[i].1)
            && (TimesIncrease(candles) ==>
                  forall i, j :: 0 <= i < j < |trades| ==> trades[i].exitTime < trades[j].entryTime)
  {
    AllTradesSpan(candles, signals, initial);
    AllSpansInOrder(signals);
    var trades, spans := ReportOf(candles, signals, initial).trades, AllSpans(signals);
    if TimesIncrease(candles) {
      forall i, j | 0 <= i < j < |trades|
        ensures trades[i].exitTime < trades[j].entryTime
      {
        assert TradeSpans(trades[i], candles, spans[i]) && TradeSpans(trades[j], candles, spans[j]);
      }
    }
  }

  // ---- Position and averages ----

  /** The index of the first sell signal that closed a position, if the run got that far. */
  ghost predicate ClosedBefore(signals: seq<int>, k: nat)
    requires k <= |signals|
  {
    exists i :: 0 <= i < k && signals[i] == -1 && OpenSince(signals, i).Some?
  }

  /**
   A position open after candle `i` means the short average is not below the long one; being flat once a position has
   been closed means it is not above. For any closes, positive or not.
   */
  lemma {:induction false} PositionFollowsTheAverages(closes: seq<real>, p: Periods, signals: seq<int>, i: nat)
    requires ValidPeriods(p) && signals == Signals(closes, p) && i < |closes|
    ensures OpenSince(signals, i + 1).Some? ==> p.long <= i && ShortSma(closes, p, i) >= LongSma(closes, p, i)
    ensures OpenSince(signals, i + 1).None? && ClosedBefore(signals, i + 1) ==>
              p.long <= i && ShortSma(closes, p, i) <= LongSma(closes, p, i)
  {
    var gaps := Gaps(closes, p);
    SignalsCrossZero(closes, p);
    PositionFollowsTheGap(gaps, signals, p.long, i);
    assert gaps[i] == Gap(closes, p, i);
  }

  /** Short minus long average at every candle. */
  function Gaps(closes: seq<real>, p: Periods): (gaps: seq<real>)
    requires ValidPeriods(p)
    ensures |gaps| == |closes| && forall i :: 0 <= i < |closes| ==> gaps[i] == Gap(closes, p, i)
  {
    seq(|closes|, i requires 0 <= i < |closes| => Gap(closes, p, i))
  }

  /** From `first` on, the signals are the crossings of zero by the gap; before it there are none. */
  ghost predicate CrossingsOf(gaps: seq<real>, signals: seq<int>, first: nat)
    requires |gaps| == |signals|
  {
    && (forall i :: 0 <= i < |signals| && i < first ==> signals[i] == 0)
    && (forall i :: first <= i < |signals| ==> Agrees(signals[i], gaps[i]))
    && (forall i :: first < i < |signals| ==> Crosses(signals[i], gaps[i - 1], gaps[i]))
  }

  function Gap(closes: seq<real>, p: Periods, i: nat): real
    requires ValidPeriods(p)
  {
    ShortSma(closes, p, i) - LongSma(closes, p, i)
  }

  ghost predicate Crosses(signal: int, before: real, now: real) {
    && (now > 0.0 && before <= 0.0 ==> signal == 1)
    && (now < 0.0 && before >= 0.0 ==> signal == -1)
  }

  ghost predicate Agrees(signal: int, now: real) {
    (signal == 1 ==> now > 0.0) && (signal == -1 ==> now < 0.0)
  }

  lemma {:induction false} SignalCrossesZero(closes: seq<real>, p: Periods, i: nat)
    requires ValidPeriods(p) && p.long < i < |closes|
    ensures Crosses(SignalAt(closes, p, i), Gap(closes, p, i - 1), Gap(closes, p, i))
  {
    PrevIsOneBefore(closes, p, i);
  }

  lemma {:induction false} SignalsCrossZero(closes: seq<real>, p: Periods)
    requires ValidPeriods(p)
    ensures CrossingsOf(Gaps(closes, p), Signals(closes, p), p.long)
  {
    var gaps, signals := Gaps(closes, p), Signals(closes, p);
    forall i | p.long < i < |signals|
      ensures Crosses(signals[i], gaps[i - 1], gaps[i])
    {
      SignalCrossesZero(closes, p, i);
    }
    forall i | p.long <= i < |signals|
      ensures Agrees(signals[i], gaps[i])
    {
      assert Agrees(SignalAt(closes, p, i), Gap(closes, p, i));
    }
  }

  lemma {:induction false} PositionFollowsTheGap(gaps: seq<real>, signals: seq<int>, first: nat, i: nat)
    requires |gaps| == |signals| && CrossingsOf(gaps, signals, first) && i < |signals|
    ensures OpenSince(signals, i + 1).Some? ==> first <= i && gaps[i] >= 0.0
    ensures OpenSince(signals, i + 1).None? && ClosedBefore(signals, i + 1) ==> first <= i && gaps[i] <= 0.0
  {
    if i > 0 {
      PositionFollowsTheGap(gaps, signals, first, i - 1);
    }
    if ClosedBefore(signals, i + 1) && !ClosedBefore(signals, i) {
      assert signals[i] == -1 && OpenSince(signals, i).Some?;
    }
  }

  // ---- No look-ahead ----

  lemma {:induction false} SimulationLooksOnlyBack(candles: seq<Candle>, signals: seq<int>,
                                                   others: seq<Candle>, signals': seq<int>,
                                                  initial: real, k: nat)
    requires |signals| == |candles| >= k && |signals'| == |others| >= k
    requires candles[..k] == others[..k] && signals[..k] == signals'[..k]
    ensures Simulate(candles, signals, initial, k) == Simulate(others, signals', initial, k)
  {
    if k > 0 {
      assert candles[..k][..k - 1] == candles[..k - 1] && others[..k][..k - 1] == others[..k - 1];
      assert signals[..k][..k - 1] == signals[..k - 1] && signals'[..k][..k - 1] == signals'[..k - 1];
      assert candles[k - 1] == candles[..k][k - 1] && others[k - 1] == others[..k][k - 1];
      assert signals[k - 1] == signals[..k][k - 1] && signals'[k - 1] == signals'[..k][k - 1];
      SimulationLooksOnlyBack(candles, signals, others, signals', initial, k - 1);
    }
  }

  lemma {:induction false} SignalsOfPrefix(candles: seq<Candle>, p: Periods, k: nat)
    requires ValidPeriods(p) && k <= |candles|
    ensures Signals(Closes(candles[..k]), p) == Signals(Closes(candles), p)[..k]
  {
    var all, prefix := Closes(candles), Closes(candles[..k]);
    forall i | 0 <= i < k
      ensures SignalAt(prefix, p, i) == SignalAt(all, p, i)
    {
      assert prefix[..i] == all[..i];
      SignalLooksOnlyBack(prefix, all, p, i);
    }
  }

  lemma {:induction false} CurveLength(candles: seq<Candle>, signals: seq<int>, initial: real, k: nat)
    requires k <= |candles| == |signals|
    ensures |Simulate(candles, signals, initial, k).curve| == k
  {
    if k > 0 {
      CurveLength(candles, signals, initial, k - 1);
      var p := TrackExtendsCurve(Simulate(candles, signals, initial, k - 1), candles[k - 1], signals[k - 1]);
    }
  }

  lemma {:induction false} CurveGrows(candles: seq<Candle>, signals: seq<int>, initial: real, k: nat, n: nat)
    requires k <= n <= |candles| == |signals|
    ensures Simulate(candles, signals, initial, k).curve <= Simulate(candles, signals, initial, n).curve
    decreases n
  {
    if k < n {
      CurveGrows(candles, signals, initial, k, n - 1);
      var p := TrackExtendsCurve(Simulate(candles, signals, initial, n - 1), candles[n - 1], signals[n - 1]);
    }
  }

  /**
   No look-ahead: for any candles, the equity curve of a backtest on the first `k` is the first `k` points of the
   curve on all of them. This includes the candle at which the engine slices from index -1.
   */
  lemma {:induction false} BacktestLooksOnlyBack(candles: seq<Candle>, strategyId: string, initial: real, k: nat)
    requires 0 < k <= |candles| && initial != 0.0
    ensures var p, prefix := PeriodsOf(strategyId), candles[..k];
            && |ReportOf(candles, Signals(Closes(candles), p), initial).curve| == |candles|
            && ReportOf(prefix, Signals(Closes(prefix), p), initial).curve
                 == ReportOf(candles, Signals(Closes(candles), p), initial).curve[..k]
  {
    var p, prefix := PeriodsOf(strategyId), candles[..k];
    var all, some := Signals(Closes(candles), p), Signals(Closes(prefix), p);
    SignalsOfPrefix(candles, p, k);
    assert prefix[..k] == candles[..k] && some[..k] == all[..k];
    SimulationLooksOnlyBack(prefix, some, candles, all, initial, k);
    CurveGrows(candles, all, initial, k, |candles|);
    CurveLength(candles, all, initial, k);
    CurveLength(candles, all, initial, |candles|);
  }
}
