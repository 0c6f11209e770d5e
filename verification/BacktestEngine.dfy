/** The single-position simulator of the backtest engine. */
module BacktestEngine {
  import opened Builtins
  import opened Wrappers
  import opened Ratios
  import opened BacktestSignals

  datatype Trade = Trade(entryTime: int, entryPrice: real, exitTime: int, exitPrice: real, quantity: real, pnl: real)

  datatype EquityPoint = EquityPoint(timestamp: int, equity: real, drawdown: real)

  /** An open trade. */
  datatype Position = Position(entryTime: int, entryPrice: real, quantity: real)

  /** The variables of the candle loop. */
  datatype Sim = Sim(
    capital: real,
    position: Option<Position>,
    trades: seq<Trade>,
    curve: seq<EquityPoint>,
    periodReturns: seq<real>,
    peak: real,
    maxDrawdown: real,
    previous: real)

  /** `periodReturns` is what the Sharpe ratio is computed from. */
  datatype Report = Report(
    totalReturn: real,
    maxDrawdown: real,
    winRate: real,
    profitFactor: real,
    finalCapital: real,
    trades: seq<Trade>,
    curve: seq<EquityPoint>,
    periodReturns: seq<real>)

  datatype Error = ZeroDivision

  function Gain(p: Position, price: real): real {
    (price - p.entryPrice) * p.quantity
  }

  function Closed(p: Position, time: int, price: real): Trade {
    Trade(p.entryTime, p.entryPrice, time, price, p.quantity, Gain(p, price))
  }

  /** Closing on a sell signal, or opening on a buy signal with all the capital. */
  function Act(s: Sim, c: Candle, signal: int): Sim {
    if signal == -1 && s.position.Some? then
      var t := Closed(s.position.value, c.timestamp, c.close);
      s.(capital := s.capital + t.pnl, trades := s.trades + [t], position := None)
    else if signal == 1 && s.position.None? && c.close != 0.0 then
      s.(position := Some(Position(c.timestamp, c.close, s.capital / c.close)))
    else s
  }

  function CurrentEquity(capital: real, position: Option<Position>, price: real): real {
    if position.Some? then capital + Gain(position.value, price) else capital
  }

  /** Running peak, drawdown, equity curve and period return. */
  function Track(s: Sim, c: Candle): Sim {
    var equity := CurrentEquity(s.capital, s.position, c.close);
    var peak := Max(s.peak, equity);
    var dd := if peak > 0.0 then Drawdown(peak, equity) else 0.0;
    s.(peak := peak,
       maxDrawdown := Max(s.maxDrawdown, dd),
       curve := s.curve + [EquityPoint(c.timestamp, equity, dd)],
       periodReturns := if s.previous > 0.0 then s.periodReturns + [PeriodReturn(s.previous, equity)]
                        else s.periodReturns,
       previous := equity)
  }

  function Start(initial: real): Sim {
    Sim(initial, None, [], [], [], initial, 0.0, initial)
  }

  /** The loop variables after the first `k` candles. */
  function Simulate(candles: seq<Candle>, signals: seq<int>, initial: real, k: nat): Sim
    requires k <= |candles| && |signals| == |candles|
  {
    if k == 0 then Start(initial)
    else Track(Act(Simulate(candles, signals, initial, k - 1), candles[k - 1], signals[k - 1]), candles[k - 1])
  }

  /** A position still open is closed at the last candle. */
  function Settle(s: Sim, candles: seq<Candle>): Sim {
    if s.position.Some? && candles != [] then
      var last := candles[|candles| - 1];
      var t := Closed(s.position.value, last.timestamp, last.close);
      s.(capital := s.capital + t.pnl, trades := s.trades + [t], position := None)
    else s
  }

  function SumPnl(trades: seq<Trade>): real {
    if trades == [] then 0.0 else SumPnl(trades[..|trades| - 1]) + trades[|trades| - 1].pnl
  }

  function Winners(trades: seq<Trade>): seq<Trade> {
    if trades == [] then []
    else if trades[|trades| - 1].pnl > 0.0 then Winners(trades[..|trades| - 1]) + [trades[|trades| - 1]]
    else Winners(trades[..|trades| - 1])
  }

  function Losers(trades: seq<Trade>): seq<Trade> {
    if trades == [] then []
    else if trades[|trades| - 1].pnl > 0.0 then Losers(trades[..|trades| - 1])
    else Losers(trades[..|trades| - 1]) + [trades[|trades| - 1]]
  }

  function GrossProfit(trades: seq<Trade>): real { SumPnl(Winners(trades)) }

  function GrossLoss(trades: seq<Trade>): real { Abs(SumPnl(Losers(trades))) }

  function WinRate(trades: seq<Trade>): real {
    if trades == [] then 0.0 else |Winners(trades)| as real / |trades| as real
  }

  function ProfitFactor(trades: seq<Trade>): real {
    if GrossLoss(trades) > 0.0 then GrossProfit(trades) / GrossLoss(trades)
    else if GrossProfit(trades) == 0.0 then 0.0
    else 999.99
  }

  /** The report drawn from the loop variables at the end of the loop. */
  function ReportFrom(s: Sim, candles: seq<Candle>, initial: real): Report
    requires initial != 0.0
  {
    var end := Settle(s, candles);
    Report((end.capital - initial) / initial, s.maxDrawdown, WinRate(end.trades), ProfitFactor(end.trades), end.capital,
           end.trades, s.curve, s.periodReturns)
  }

  function ReportOf(candles: seq<Candle>, signals: seq<int>, initial: real): Report
    requires |signals| == |candles| && initial != 0.0
  {
    ReportFrom(Simulate(candles, signals, initial, |candles|), candles, initial)
  }

  /** Where the position stands after the first `k` candles, from the signals alone: the index of its entry candle. */
  function OpenSince(signals: seq<int>, k: nat): (r: Option<nat>)
    requires k <= |signals|
    ensures r.Some? ==> r.value < k
  {
    if k == 0 then None
    else
      var before := OpenSince(signals, k - 1);
      if signals[k - 1] == -1 && before.Some? then None
      else if signals[k - 1] == 1 && before.None? then Some(k - 1)
      else before
  }

  predicate BuysAt(signals: seq<int>, i: nat)
    requires i < |signals|
  {
    signals[i] == 1 && OpenSince(signals, i).None?
  }

  predicate BuysAtZero(candles: seq<Candle>, signals: seq<int>)
    requires |signals| == |candles|
  {
    exists i :: 0 <= i < |candles| && BuysAt(signals, i) && candles[i].close == 0.0
  }

  lemma {:induction false} PositionFollowsSignals(candles: seq<Candle>, signals: seq<int>, initial: real, k: nat)
    requires k <= |candles| == |signals|
    requires forall i :: 0 <= i < k && BuysAt(signals, i) ==> candles[i].close != 0.0
    ensures var p := Simulate(candles, signals, initial, k).position;
            match OpenSince(signals, k)
            case None => p.None?
            case Some(e) =>
              p.Some? && p.value.entryTime == candles[e].timestamp && p.value.entryPrice == candles[e].close
  {
    if k > 0 {
      PositionFollowsSignals(candles, signals, initial, k - 1);
    }
  }

  lemma {:induction false} FlatIffNotOpen(candles: seq<Candle>, signals: seq<int>, initial: real, k: nat)
    requires k < |candles| == |signals|
    requires forall i :: 0 <= i < k && BuysAt(signals, i) ==> candles[i].close != 0.0
    ensures signals[k] == 1 && Simulate(candles, signals, initial, k).position.None? <==> BuysAt(signals, k)
  {
    PositionFollowsSignals(candles, signals, initial, k);
  }

  /** The first half of the loop body: close on a sell signal, or open on a buy signal. */
  method CloseOrOpen(capital: real, position: Option<Position>, trades: seq<Trade>, candle: Candle, signal: int,
                     ghost s: Sim)
    returns (capital': real, position': Option<Position>, trades': seq<Trade>)
    requires s.capital == capital && s.position == position && s.trades == trades
    requires signal == 1 && position.None? ==> candle.close != 0.0
    ensures Act(s, candle, signal) == s.(capital := capital', position := position', trades := trades')
  {
    capital', position', trades' := capital, position, trades;
    if signal == -1 && position.Some? {
      var trade := Closed(position.value, candle.timestamp, candle.close);
      capital', trades', position' := capital + trade.pnl, trades + [trade], None;
    } else if signal == 1 && position.None? {
      position' := Some(Position(candle.timestamp, candle.close, capital / candle.close));
    }
  }

  /** The candle loop. It fails exactly when it buys at a close of 0. */
  method SimulateCandles(candles: seq<Candle>, signals: seq<int>, initial: real) returns (r: Result<Sim, Error>)
    requires |signals| == |candles|
    ensures r.Failure? <==> BuysAtZero(candles, signals)
    ensures r.Success? ==> r.value == Simulate(candles, signals, initial, |candles|)
  {
    var capital, peak, previous, maxDrawdown := initial, initial, initial, 0.0;
    var position: Option<Position> := None;
    var trades: seq<Trade>, curve: seq<EquityPoint>, periodReturns: seq<real> := [], [], [];
    var i := 0;
    while i < |candles|
      invariant 0 <= i <= |candles|
      invariant forall j :: 0 <= j < i && BuysAt(signals, j) ==> candles[j].close != 0.0
      invariant Sim(capital, position, trades, curve, periodReturns, peak, maxDrawdown, previous)
             == Simulate(candles, signals, initial, i)
    {
      var candle, signal := candles[i], signals[i];
      FlatIffNotOpen(candles, signals, initial, i);
      if signal == 1 && position.None? && candle.close == 0.0 {
        return Failure(ZeroDivision);
      }
      ghost var before := Sim(capital, position, trades, curve, periodReturns, peak, maxDrawdown, previous);
      capital, position, trades := CloseOrOpen(capital, position, trades, candle, signal, before);
      ghost var acted := Act(before, candle, signal);
      var equity := CurrentEquity(capital, position, candle.close);
      peak := Max(peak, equity);
      var dd := if peak > 0.0 then Drawdown(peak, equity) else 0.0;
      maxDrawdown := Max(maxDrawdown, dd);
      curve := curve + [EquityPoint(candle.timestamp, equity, dd)];
      if previous > 0.0 {
        periodReturns := periodReturns + [PeriodReturn(previous, equity)];
      }
      previous := equity;
      assert Sim(capital, position, trades, curve, periodReturns, peak, maxDrawdown, previous) == Track(acted, candle);
      i := i + 1;
    }
    return Success(Sim(capital, position, trades, curve, periodReturns, peak, maxDrawdown, previous));
  }

  /** Everything after the loop: the forced close, the total return and the trade statistics. */
  method Summarize(candles: seq<Candle>, s: Sim, initial: real) returns (r: Result<Report, Error>)
    requires candles != []
    ensures r == if initial == 0.0 then Failure(ZeroDivision) else Success(ReportFrom(s, candles, initial))
  {
    var capital, trades := s.capital, s.trades;
    if s.position.Some? {
      var last := candles[|candles| - 1];
      var trade := Closed(s.position.value, last.timestamp, last.close);
      capital, trades := capital + trade.pnl, trades + [trade];
    }
    if initial == 0.0 {
      return Failure(ZeroDivision);
    }
    return Success(Report((capital - initial) / initial, s.maxDrawdown, WinRate(trades), ProfitFactor(trades), capital,
                          trades, s.curve, s.periodReturns));
  }

  const EMPTY_REPORT := Report(0.0, 0.0, 0.0, 0.0, 0.0, [], [], [])

  /**
   `run_backtest`, up to rounding and the Sharpe ratio. It divides by zero exactly when it buys at a close of 0, or the
   initial capital is 0; no candles give the empty report.
   */
  method RunBacktest(candles: seq<Candle>, strategyId: string, initial: real) returns (r: Result<Report, Error>)
    ensures candles == [] ==> r == Success(EMPTY_REPORT)
    ensures candles != [] ==>
              var signals := Signals(Closes(candles), PeriodsOf(strategyId));
              r == if initial == 0.0 || BuysAtZero(candles, signals) then Failure(ZeroDivision)
                   else Success(ReportOf(candles, signals, initial))
  {
    if candles == [] {
      return Success(EMPTY_REPORT);
    }
    var signals := GenerateSignals(candles, strategyId);
    var run := SimulateCandles(candles, signals, initial);
    if run.Failure? {
      return Failure(ZeroDivision);
    }
    r := Summarize(candles, run.value, initial);
  }
}
