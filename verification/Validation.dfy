/**
 Backtest validation of strategy candidates: thresholds on every symbol, averages, and the ranking by Sharpe ratio.
 */
module Validation {
  import opened Wrappers

  const MIN_SHARPE: real := 0.5
  const MIN_WIN_RATE: real := 0.45
  const MAX_DRAWDOWN: real := -0.30
  const MIN_TRADES: real := 5.0

  const BACKTEST_SYMBOLS: seq<string> := ["BTC-USD", "ETH-USD"]

  datatype Metrics = Metrics(sharpe: real, winRate: real, maxDrawdown: real, cumulativeReturn: real, totalTrades: real,
                             profitFactor: real, sortino: real)

  /** What one backtest call gave: no usable result, its metrics with the defaults filled in, or an exception. */
  datatype Answer = NoResult | Backtested(metrics: Metrics) | Raised

  /** `_passes_minimum_criteria` */
  predicate Passes(m: Metrics) {
    m.sharpe >= MIN_SHARPE && m.winRate >= MIN_WIN_RATE && m.maxDrawdown >= MAX_DRAWDOWN && m.totalTrades >= MIN_TRADES
  }

  // ---- _aggregate_metrics ----

  datatype Field = Sharpe | WinRate | MaxDrawdown | CumulativeReturn | TotalTrades | ProfitFactor | Sortino

  function Get(m: Metrics, f: Field): real {
    match f
    case Sharpe => m.sharpe
    case WinRate => m.winRate
    case MaxDrawdown => m.maxDrawdown
    case CumulativeReturn => m.cumulativeReturn
    case TotalTrades => m.totalTrades
    case ProfitFactor => m.profitFactor
    case Sortino => m.sortino
  }

  function Sum(ms: seq<Metrics>, f: Field): real {
    if ms == [] then 0.0 else Sum(ms[..|ms| - 1], f) + Get(ms[|ms| - 1], f)
  }

  function Average(ms: seq<Metrics>, f: Field): real
    requires ms != []
  {
    Sum(ms, f) / |ms| as real
  }

  /** Every field is averaged over the symbols except the number of trades, which is summed. */
  function Aggregate(ms: seq<Metrics>): Metrics
    requires ms != []
  {
    Metrics(Average(ms, Sharpe), Average(ms, WinRate), Average(ms, MaxDrawdown), Average(ms, CumulativeReturn),
            Sum(ms, TotalTrades), Average(ms, ProfitFactor), Average(ms, Sortino))
  }

  /** An average times the number of symbols is the sum over them; trades are not averaged. */
  lemma {:induction false} AggregateMeans(ms: seq<Metrics>)
    requires ms != []
    ensures var n, a := |ms| as real, Aggregate(ms);
            && Sum(ms, Sharpe) == n * a.sharpe && Sum(ms, WinRate) == n * a.winRate
            && Sum(ms, MaxDrawdown) == n * a.maxDrawdown && Sum(ms, CumulativeReturn) == n * a.cumulativeReturn
            && Sum(ms, ProfitFactor) == n * a.profitFactor && Sum(ms, Sortino) == n * a.sortino
            && Sum(ms, TotalTrades) == a.totalTrades
  {
    forall f: Field
      ensures Sum(ms, f) == |ms| as real * Average(ms, f)
    {
    }
  }

  /** On the two configured symbols, without any sum. */
  lemma {:induction false} AggregateOfTwo(a: Metrics, b: Metrics)
    ensures var m := Aggregate([a, b]);
            && 2.0 * m.sharpe == a.sharpe + b.sharpe && 2.0 * m.winRate == a.winRate + b.winRate
            && 2.0 * m.maxDrawdown == a.maxDrawdown + b.maxDrawdown
            && 2.0 * m.cumulativeReturn == a.cumulativeReturn + b.cumulativeReturn
            && 2.0 * m.profitFactor == a.profitFactor + b.profitFactor && 2.0 * m.sortino == a.sortino + b.sortino
            && m.totalTrades == a.totalTrades + b.totalTrades
  {
    AggregateMeans([a, b]);
    forall f: Field
      ensures Sum([a, b], f) == Get(a, f) + Get(b, f)
    {
      SumOfTwo(a, b, f);
    }
  }

  lemma QuotientAtLeast(total: real, n: real, bound: real)
    requires n > 0.0 && total >= n * bound
    ensures total / n >= bound
  {
    var q := total / n;
    assert q * n == total;
    if q < bound {
      assert (bound - q) * n > 0.0;
    }
  }

  lemma {:induction false} SumAtLeast(ms: seq<Metrics>, f: Field, bound: real)
    requires forall m :: m in ms ==> Get(m, f) >= bound
    ensures Sum(ms, f) >= |ms| as real * bound
  {
    if ms != [] {
      SumAtLeast(ms[..|ms| - 1], f, bound);
      assert |ms| as real * bound == (|ms| - 1) as real * bound + bound;
    }
  }

  lemma {:induction false} AverageAtLeast(ms: seq<Metrics>, f: Field, bound: real)
    requires ms != [] && forall m :: m in ms ==> Get(m, f) >= bound
    ensures Average(ms, f) >= bound
  {
    SumAtLeast(ms, f, bound);
    QuotientAtLeast(Sum(ms, f), |ms| as real, bound);
  }

  /** Averaging cannot fail what every symbol passed. */
  lemma AggregatePasses(ms: seq<Metrics>)
    requires ms != [] && forall m :: m in ms ==> Passes(m)
    ensures Passes(Aggregate(ms))
  {
    AverageAtLeast(ms, Sharpe, MIN_SHARPE);
    AverageAtLeast(ms, WinRate, MIN_WIN_RATE);
    AverageAtLeast(ms, MaxDrawdown, MAX_DRAWDOWN);
    SumAtLeast(ms, TotalTrades, MIN_TRADES);
    assert |ms| as real * MIN_TRADES >= MIN_TRADES;
  }

  lemma SumOfTwo(a: Metrics, b: Metrics, f: Field)
    ensures Sum([a, b], f) == Get(a, f) + Get(b, f)
  {
    assert [a, b][..1] == [a] && [a][..0] == [];
    assert Sum([a], f) == Get(a, f);
  }

  /** But the averages of a candidate that fails on one symbol may pass, so the check per symbol is not redundant. */
  lemma AveragesHideAFailure()
    ensures exists a, b :: !Passes(a) && Passes(b) && Passes(Aggregate([a, b]))
  {
    var a, b := Metrics(0.0, 0.5, 0.0, 0.0, 5.0, 0.0, 0.0), Metrics(1.0, 0.5, 0.0, 0.0, 5.0, 0.0, 0.0);
    SumOfTwo(a, b, Sharpe);
    SumOfTwo(a, b, WinRate);
    SumOfTwo(a, b, MaxDrawdown);
    SumOfTwo(a, b, TotalTrades);
    assert Passes(Aggregate([a, b]));
  }

  // ---- validate_candidates ----

  datatype Validated = Validated(name: string, metrics: Metrics, perSymbol: seq<Metrics>)

  datatype ValidationError = BacktestRaised

  /** The metrics of a candidate on the symbols in turn, `None` as soon as one is missing or fails. */
  function OnSymbols(ask: string -> Answer, symbols: seq<string>): (r: Result<Option<seq<Metrics>>, ValidationError>)
    ensures r.Success? && r.value.Some? ==>
              && |r.value.value| == |symbols|
              && forall i :: 0 <= i < |symbols| ==>
                   ask(symbols[i]) == Backtested(r.value.value[i]) && Passes(r.value.value[i])
  {
    if symbols == [] then Success(Some([]))
    else
      var init := OnSymbols(ask, symbols[..|symbols| - 1]);
      if init.Failure? || init.value.None? then init
      else match ask(symbols[|symbols| - 1])
        case Raised => Failure(BacktestRaised)
        case NoResult => Success(None)
        case Backtested(m) => Success(if Passes(m) then Some(init.value.value + [m]) else None)
  }

  function At(ask: (nat, string) -> Answer, k: nat): string -> Answer {
    s => ask(k, s)
  }

  /**
   The k-th candidate, if it passes; the oracle is asked by position, so that a repeated name may answer differently.
   */
  function ValidateOne(ask: (nat, string) -> Answer, k: nat, name: string, symbols: seq<string>)
    : Result<seq<Validated>, ValidationError>
  {
    match OnSymbols(At(ask, k), symbols)
    case Failure(e) => Failure(e)
    case Success(None) => Success([])
    case Success(Some(ms)) => Success(if ms == [] then [] else [Validated(name, Aggregate(ms), ms)])
  }

  /** The candidates that pass, before sorting. */
  function Collect(ask: (nat, string) -> Answer, names: seq<string>,
                   symbols: seq<string>): Result<seq<Validated>, ValidationError> {
    if names == [] then Success([])
    else match Collect(ask, names[..|names| - 1], symbols)
      case Failure(e) => Failure(e)
      case Success(init) =>
        match ValidateOne(ask, |names| - 1, names[|names| - 1], symbols)
        case Failure(e) => Failure(e)
        case Success(last) => Success(init + last)
  }

  /** Behind every candidate that is at least as good: the place of the stable descending sort. */
  function InsertByRank(sorted: seq<Validated>, v: Validated): seq<Validated> {
    if sorted == [] then [v]
    else if sorted[|sorted| - 1].metrics.sharpe >= v.metrics.sharpe then sorted + [v]
    else InsertByRank(sorted[..|sorted| - 1], v) + [sorted[|sorted| - 1]]
  }

  function Ranked(vs: seq<Validated>): seq<Validated> {
    if vs == [] then [] else InsertByRank(Ranked(vs[..|vs| - 1]), vs[|vs| - 1])
  }

  predicate Descending(vs: seq<Validated>) {
    forall i, j :: 0 <= i < j < |vs| ==> vs[i].metrics.sharpe >= vs[j].metrics.sharpe
  }

  lemma {:induction false} InsertIsPermutation(sorted: seq<Validated>, v: Validated)
    ensures multiset(InsertByRank(sorted, v)) == multiset(sorted) + multiset{v}
  {
    if sorted != [] && sorted[|sorted| - 1].metrics.sharpe < v.metrics.sharpe {
      InsertIsPermutation(sorted[..|sorted| - 1], v);
      assert sorted == sorted[..|sorted| - 1] + [sorted[|sorted| - 1]];
    }
  }

  lemma {:induction false} InsertKeepsAtLeast(sorted: seq<Validated>, v: Validated, bound: real)
    requires v.metrics.sharpe >= bound && forall i :: 0 <= i < |sorted| ==> sorted[i].metrics.sharpe >= bound
    ensures forall i :: 0 <= i < |InsertByRank(sorted, v)| ==> InsertByRank(sorted, v)[i].metrics.sharpe >= bound
  {
    if sorted != [] && sorted[|sorted| - 1].metrics.sharpe < v.metrics.sharpe {
      InsertKeepsAtLeast(sorted[..|sorted| - 1], v, bound);
    }
  }

  lemma {:induction false} InsertKeepsRank(sorted: seq<Validated>, v: Validated)
    requires Descending(sorted)
    ensures Descending(InsertByRank(sorted, v))
  {
    if sorted != [] && sorted[|sorted| - 1].metrics.sharpe < v.metrics.sharpe {
      var init, last := sorted[..|sorted| - 1], sorted[|sorted| - 1];
      InsertKeepsRank(init, v);
      InsertKeepsAtLeast(init, v, last.metrics.sharpe);
    }
  }

  lemma {:induction false} RankedIsPermutation(vs: seq<Validated>)
    ensures multiset(Ranked(vs)) == multiset(vs)
  {
    if vs != [] {
      var init, last := vs[..|vs| - 1], vs[|vs| - 1];
      assert multiset(vs) == multiset(init) + multiset{last} by {
        assert vs == init + [last];
      }
      RankedIsPermutation(init);
      InsertIsPermutation(Ranked(init), last);
      assert Ranked(vs) == InsertByRank(Ranked(init), last);
    }
  }

  lemma {:induction false} RankedIsDescending(vs: seq<Validated>)
    ensures Descending(Ranked(vs))
  {
    if vs != [] {
      RankedIsDescending(vs[..|vs| - 1]);
      InsertKeepsRank(Ranked(vs[..|vs| - 1]), vs[|vs| - 1]);
    }
  }

  lemma RankedIsSorted(vs: seq<Validated>)
    ensures Descending(Ranked(vs)) && multiset(Ranked(vs)) == multiset(vs)
    ensures forall v :: v in Ranked(vs) <==> v in vs
  {
    RankedIsDescending(vs);
    RankedIsPermutation(vs);
    assert forall v :: v in Ranked(vs) <==> v in multiset(Ranked(vs));
  }

  function WithSharpe(vs: seq<Validated>, sharpe: real): seq<Validated> {
    if vs == [] then []
    else
      var init := WithSharpe(vs[..|vs| - 1], sharpe);
      if vs[|vs| - 1].metrics.sharpe == sharpe then init + [vs[|vs| - 1]] else init
  }

  lemma {:induction false} WithSharpeSnoc(vs: seq<Validated>, v: Validated, sharpe: real)
    ensures WithSharpe(vs + [v], sharpe) == WithSharpe(vs, sharpe) + if v.metrics.sharpe == sharpe then [v] else []
  {
    assert (vs + [v])[..|vs|] == vs;
  }

  lemma {:induction false} InsertIsStable(sorted: seq<Validated>, v: Validated, sharpe: real)
    requires Descending(sorted)
    ensures WithSharpe(InsertByRank(sorted, v), sharpe) == WithSharpe(sorted + [v], sharpe)
  {
    if sorted != [] && sorted[|sorted| - 1].metrics.sharpe < v.metrics.sharpe {
      var init, last := sorted[..|sorted| - 1], sorted[|sorted| - 1];
      InsertIsStable(init, v, sharpe);
      WithSharpeSnoc(InsertByRank(init, v), last, sharpe);
      WithSharpeSnoc(sorted, v, sharpe);
      WithSharpeSnoc(init, v, sharpe);
    }
  }

  /** Candidates of equal Sharpe ratio keep their order. */
  lemma {:induction false} RankingIsStable(vs: seq<Validated>, sharpe: real)
    ensures WithSharpe(Ranked(vs), sharpe) == WithSharpe(vs, sharpe)
  {
    if vs != [] {
      var init, last := vs[..|vs| - 1], vs[|vs| - 1];
      RankingIsStable(init, sharpe);
      RankedIsDescending(init);
      InsertIsStable(Ranked(init), last, sharpe);
      WithSharpeSnoc(Ranked(init), last, sharpe);
    }
  }

  /** `validate_candidates` */
  function Validate(ask: (nat, string) -> Answer, names: seq<string>,
                    symbols: seq<string>): Result<seq<Validated>, ValidationError> {
    match Collect(ask, names, symbols)
    case Failure(e) => Failure(e)
    case Success(vs) => Success(Ranked(vs))
  }

  /** The four thresholds, as numbers. */
  ghost predicate Meets(m: Metrics) {
    m.sharpe >= 0.5 && m.winRate >= 0.45 && m.maxDrawdown >= -0.30 && m.totalTrades >= 5.0
  }

  /** Met every threshold on every symbol when asked at position `k`, and so does the aggregate. */
  ghost predicate Earned(v: Validated, ask: (nat, string) -> Answer, names: seq<string>, symbols: seq<string>, k: nat) {
    && k < |names| && v.name == names[k] && symbols != [] && |v.perSymbol| == |symbols|
    && (forall i :: 0 <= i < |symbols| ==> ask(k, symbols[i]) == Backtested(v.perSymbol[i]) && Meets(v.perSymbol[i]))
    && v.metrics == Aggregate(v.perSymbol) && Meets(v.metrics)
  }

  lemma ValidatedOneEarned(ask: (nat, string) -> Answer, names: seq<string>, k: nat, symbols: seq<string>, v: Validated)
    requires k < |names|
    requires var r := ValidateOne(ask, k, names[k], symbols); r.Success? && v in r.value
    ensures Earned(v, ask, names, symbols, k)
  {
    var ms := OnSymbols(At(ask, k), symbols).value.value;
    assert v == Validated(names[k], Aggregate(ms), ms);
    AggregatePasses(ms);
  }

  lemma {:induction false} CollectedEarned(ask: (nat, string) -> Answer, names: seq<string>, symbols: seq<string>,
                                           v: Validated) returns (k: nat)
    requires var r := Collect(ask, names, symbols); r.Success? && v in r.value
    ensures Earned(v, ask, names, symbols, k)
  {
    var n := |names| - 1;
    var init := names[..n];
    if v in Collect(ask, init, symbols).value {
      k := CollectedEarned(ask, init, symbols, v);
    } else {
      k := n;
      ValidatedOneEarned(ask, names, k, symbols, v);
    }
  }

  /**
   Every candidate returned met all four thresholds on every configured symbol, and its averaged Sharpe ratio, win rate
   and drawdown and its summed trades meet them too; the list is ranked by Sharpe ratio.
   */
  lemma {:induction false} ValidatedEarnedIt(ask: (nat, string) -> Answer, names: seq<string>, symbols: seq<string>,
                                             v: Validated) returns (k: nat)
    requires var r := Validate(ask, names, symbols); r.Success? && v in r.value
    ensures Earned(v, ask, names, symbols, k) && Descending(Validate(ask, names, symbols).value)
  {
    var vs := Collect(ask, names, symbols).value;
    RankedIsSorted(vs);
    k := CollectedEarned(ask, names, symbols, v);
  }

  /** And nothing that earned it is left out. */
  lemma {:induction false} EarnedIsValidated(ask: (nat, string) -> Answer, names: seq<string>, symbols: seq<string>,
                                             v: Validated, k: nat)
    requires Earned(v, ask, names, symbols, k) && Validate(ask, names, symbols).Success?
    ensures v in Validate(ask, names, symbols).value
  {
    EarnedIsCollected(ask, names, symbols, v, k);
    var vs := Collect(ask, names, symbols).value;
    RankedIsSorted(vs);
  }

  lemma {:induction false} EarnedOnSymbols(ask: string -> Answer, symbols: seq<string>, ms: seq<Metrics>)
    requires |ms| == |symbols|
    requires forall i :: 0 <= i < |symbols| ==> ask(symbols[i]) == Backtested(ms[i]) && Passes(ms[i])
    ensures OnSymbols(ask, symbols) == Success(Some(ms))
  {
    if symbols != [] {
      EarnedOnSymbols(ask, symbols[..|symbols| - 1], ms[..|ms| - 1]);
      assert ms == ms[..|ms| - 1] + [ms[|ms| - 1]];
    }
  }

  lemma {:induction false} EarnedIsCollected(ask: (nat, string) -> Answer, names: seq<string>, symbols: seq<string>,
                                             v: Validated, k: nat)
    requires Earned(v, ask, names, symbols, k) && Collect(ask, names, symbols).Success?
    ensures v in Collect(ask, names, symbols).value
  {
    var n := |names| - 1;
    if k < n {
      EarnedIsCollected(ask, names[..n], symbols, v, k);
    } else {
      EarnedOnSymbols(At(ask, k), symbols, v.perSymbol);
    }
  }

  // ---- When validation raises ----

  /** The backtest on symbol `j` raises, and is reached: every symbol before has metrics that meet the thresholds. */
  ghost predicate RaisesAt(ask: string -> Answer, symbols: seq<string>, j: nat) {
    && j < |symbols| && ask(symbols[j]).Raised?
    && forall i :: 0 <= i < j ==> ask(symbols[i]).Backtested? && Meets(ask(symbols[i]).metrics)
  }

  lemma {:induction false} OnSymbolsRaisesIff(ask: string -> Answer, symbols: seq<string>)
    ensures OnSymbols(ask, symbols).Failure? <==> exists j: nat :: RaisesAt(ask, symbols, j)
    ensures OnSymbols(ask, symbols) == Success(None) <==>
              (forall j: nat :: !RaisesAt(ask, symbols, j))
              && exists i :: 0 <= i < |symbols| && !(ask(symbols[i]).Backtested? && Meets(ask(symbols[i]).metrics))
  {
    if symbols != [] {
      var init, n := symbols[..|symbols| - 1], |symbols| - 1;
      OnSymbolsRaisesIff(ask, init);
      assert forall i :: 0 <= i < n ==> init[i] == symbols[i];
      assert forall j: nat :: j < n ==> (RaisesAt(ask, init, j) <==> RaisesAt(ask, symbols, j));
      assert forall j: nat :: RaisesAt(ask, init, j) ==> j < n && RaisesAt(ask, symbols, j);
      assert RaisesAt(ask, symbols, n) <==>
          ask(symbols[n]).Raised? && OnSymbols(ask, init).Success? && OnSymbols(ask, init).value.Some?;
      assert forall j: nat :: RaisesAt(ask, symbols, j) ==> j == n || RaisesAt(ask, init, j);
    }
  }

  /** Validation raises exactly when some candidate has a backtest that raises and is reached. */
  lemma {:induction false} ValidationRaisesIff(ask: (nat, string) -> Answer, names: seq<string>, symbols: seq<string>)
    ensures Validate(ask, names, symbols).Failure? <==>
              exists k: nat, j: nat :: k < |names| && RaisesAt(At(ask, k), symbols, j)
  {
    if names != [] {
      ValidationRaisesIff(ask, names[..|names| - 1], symbols);
      OnSymbolsRaisesIff(At(ask, |names| - 1), symbols);
    }
  }

  // ---- The method ----

  /** The inner loop, left at the first symbol that has no metrics or fails. */
  method BacktestOnSymbols(ask: string -> Answer, symbols: seq<string>)
    returns (r: Result<Option<seq<Metrics>>, ValidationError>)
    ensures r == OnSymbols(ask, symbols)
  {
    var ms := [];
    for i := 0 to |symbols|
      invariant OnSymbols(ask, symbols[..i]) == Success(Some(ms))
    {
      assert symbols[..i + 1][..i] == symbols[..i];
      var answer := ask(symbols[i]);
      if answer.Raised? {
        LeavesEarly(ask, symbols, i + 1);
        return Failure(BacktestRaised);
      }
      if answer.NoResult? || !Passes(answer.metrics) {
        LeavesEarly(ask, symbols, i + 1);
        return Success(None);
      }
      ms := ms + [answer.metrics];
    }
    assert symbols[..|symbols|] == symbols;
    return Success(Some(ms));
  }

  lemma {:induction false} LeavesEarly(ask: string -> Answer, symbols: seq<string>, i: nat)
    requires i <= |symbols| && (OnSymbols(ask, symbols[..i]).Failure? || OnSymbols(ask, symbols[..i]).value.None?)
    ensures OnSymbols(ask, symbols) == OnSymbols(ask, symbols[..i])
  {
    if i == |symbols| {
      assert symbols[..i] == symbols;
    } else {
      assert symbols[..|symbols| - 1][..i] == symbols[..i];
      LeavesEarly(ask, symbols[..|symbols| - 1], i);
    }
  }

  lemma {:induction false} RaisesEarly(ask: (nat, string) -> Answer, names: seq<string>, symbols: seq<string>, i: nat)
    requires i <= |names| && Collect(ask, names[..i], symbols).Failure?
    ensures Collect(ask, names, symbols) == Collect(ask, names[..i], symbols)
  {
    if i == |names| {
      assert names[..i] == names;
    } else {
      assert names[..|names| - 1][..i] == names[..i];
      RaisesEarly(ask, names[..|names| - 1], symbols, i);
    }
  }

  method ValidateCandidates(ask: (nat, string) -> Answer, names: seq<string>, symbols: seq<string>)
    returns (r: Result<seq<Validated>, ValidationError>)
    ensures r == Validate(ask, names, symbols)
  {
    var validated := [];
    for i := 0 to |names|
      invariant Collect(ask, names[..i], symbols) == Success(validated)
    {
      assert names[..i + 1][..i] == names[..i];
      assert names[..i + 1][|names[..i + 1]| - 1] == names[i];
      var result := BacktestOnSymbols(At(ask, i), symbols);
      assert validated + [] == validated;
      if result.Failure? {
        RaisesEarly(ask, names, symbols, i + 1);
        return Failure(result.error);
      }
      if result.value.Some? && result.value.value != [] {
        var ms := result.value.value;
        validated := validated + [Validated(names[i], Aggregate(ms), ms)];
      }
    }
    assert names[..|names|] == names;
    return Success(Ranked(validated));
  }
}
