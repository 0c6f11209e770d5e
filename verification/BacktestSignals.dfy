/** The SMA-crossover signal generator of the backtest engine. */
module BacktestSignals {
  import opened Builtins

  datatype Candle = Candle(timestamp: int, open: real, high: real, low: real, close: real, volume: real)

  function Closes(candles: seq<Candle>): (closes: seq<real>)
    ensures |closes| == |candles|
    ensures forall i :: 0 <= i < |candles| ==> closes[i] == candles[i].close
  {
    seq(|candles|, i requires 0 <= i < |candles| => candles[i].close)
  }

  function SumTo(s: seq<real>, k: nat): real
    requires k <= |s|
  {
    if k == 0 then 0.0 else SumTo(s, k - 1) + s[k - 1]
  }

  function Sum(s: seq<real>): real {
    SumTo(s, |s|)
  }

  datatype Periods = Periods(short: nat, long: nat)

  function HashOf(id: string): nat {
    if id == "" then 0 else HashOf(id[..|id| - 1]) + id[|id| - 1] as nat
  }

  /** The periods a strategy id selects. */
  function PeriodsOf(id: string): (p: Periods)
    ensures 5 <= p.short <= 14 && p.short + 5 <= p.long && 15 <= p.long <= 34
  {
    var h := HashOf(id);
    var short := if h % 10 + 5 > 5 then h % 10 + 5 else 5;
    Periods(short, if h % 20 + 15 > short + 5 then h % 20 + 15 else short + 5)
  }

  predicate ValidPeriods(p: Periods) {
    0 < p.short < p.long
  }

  function Sma(closes: seq<real>, lo: int, hi: int, period: nat): real
    requires period > 0
  {
    Sum(Slice(closes, lo, hi)) / period as real
  }

  /** The short and long averages of the closes before candle `i`. */
  function ShortSma(closes: seq<real>, p: Periods, i: int): real
    requires ValidPeriods(p)
  {
    Sma(closes, i - p.short, i, p.short)
  }

  function LongSma(closes: seq<real>, p: Periods, i: int): real
    requires ValidPeriods(p)
  {
    Sma(closes, i - p.long, i, p.long)
  }

  /** The "previous" averages, sliced exactly as the engine slices them. */
  function PrevShort(closes: seq<real>, p: Periods, i: int): real
    requires ValidPeriods(p)
  {
    Sma(closes, i - p.short - 1, i - 1, p.short)
  }

  function PrevLong(closes: seq<real>, p: Periods, i: int): real
    requires ValidPeriods(p)
  {
    Sma(closes, i - p.long - 1, i - 1, p.long)
  }

  /** 1 to buy, -1 to sell, 0 to hold. */
  function SignalAt(closes: seq<real>, p: Periods, i: nat): (s: int)
    requires ValidPeriods(p)
    ensures s == 1 || s == -1 || s == 0
  {
    if i < p.long then 0
    else Crossover(ShortSma(closes, p, i), LongSma(closes, p, i), PrevShort(closes, p, i), PrevLong(closes, p, i))
  }

  function Crossover(shortSma: real, longSma: real, prevShort: real, prevLong: real): (s: int)
    ensures s == 1 || s == -1 || s == 0
  {
    if shortSma > longSma && prevShort <= prevLong then 1
    else if shortSma < longSma && prevShort >= prevLong then -1
    else 0
  }

  function Signals(closes: seq<real>, p: Periods): (signals: seq<int>)
    requires ValidPeriods(p)
    ensures |signals| == |closes|
    ensures forall i :: 0 <= i < |closes| ==> signals[i] == SignalAt(closes, p, i)
  {
    seq(|closes|, i requires 0 <= i < |closes| => SignalAt(closes, p, i))
  }

  method GenerateSignals(candles: seq<Candle>, strategyId: string) returns (signals: seq<int>)
    ensures |signals| == |candles|
    ensures signals == Signals(Closes(candles), PeriodsOf(strategyId))
  {
    signals := seq(|candles|, _ => 0);
    if |candles| < 2 {
      return;
    }
    var p := PeriodsOf(strategyId);
    var closes := Closes(candles);
    var i := p.long;
    while i < |candles|
      invariant p.long <= i && |signals| == |candles|
      invariant forall j :: 0 <= j < i && j < |candles| ==> signals[j] == SignalAt(closes, p, j)
      invariant forall j :: i <= j < |candles| ==> signals[j] == 0
    {
      var shortSma, longSma := ShortSma(closes, p, i), LongSma(closes, p, i);
      var prevShort, prevLong := PrevShort(closes, p, i), PrevLong(closes, p, i);
      assert SignalAt(closes, p, i) == Crossover(shortSma, longSma, prevShort, prevLong);
      if shortSma > longSma && prevShort <= prevLong {
        signals := signals[i := 1];
      } else if shortSma < longSma && prevShort >= prevLong {
        signals := signals[i := -1];
      }
      i := i + 1;
    }
  }

  /** Past the first candidate index, the "previous" averages at `i` are the averages at `i - 1`. */
  lemma {:induction false} PrevIsOneBefore(closes: seq<real>, p: Periods, i: nat)
    requires ValidPeriods(p) && p.long < i < |closes|
    ensures PrevShort(closes, p, i) == ShortSma(closes, p, i - 1)
    ensures PrevLong(closes, p, i) == LongSma(closes, p, i - 1)
  {
  }

  /** At `i == long` the slice for the previous long average starts at index -1, and is empty for every length. */
  lemma {:induction false} FirstPrevLongIsZero(closes: seq<real>, p: Periods)
    requires ValidPeriods(p) && p.long < |closes|
    ensures Slice(closes, p.long - p.long - 1, p.long - 1) == []
    ensures PrevLong(closes, p, p.long) == 0.0
  {
  }

  lemma {:induction false} SumPositive(s: seq<real>, k: nat)
    requires 0 < k <= |s| && forall i :: 0 <= i < |s| ==> s[i] > 0.0
    ensures SumTo(s, k) > 0.0
  {
    if k > 1 {
      SumPositive(s, k - 1);
    }
  }

  /**
   With positive closes no position can be opened at that index: the comparison with the empty slice forbids a buy.
   */
  lemma {:induction false} NoBuyAtFirstIndex(closes: seq<real>, p: Periods)
    requires ValidPeriods(p) && p.long < |closes| && forall i :: 0 <= i < |closes| ==> closes[i] > 0.0
    ensures SignalAt(closes, p, p.long) != 1
  {
    FirstPrevLongIsZero(closes, p);
    var prev := Slice(closes, p.long - p.short - 1, p.long - 1);
    assert prev == closes[p.long - p.short - 1..p.long - 1];
    SumPositive(prev, |prev|);
    assert Sum(prev) / p.short as real > 0.0;
  }

  /**
   No look-ahead: the signal of candle `i` depends on nothing but the closes before it, not even on how many follow.
   */
  lemma {:induction false} SignalLooksOnlyBack(closes: seq<real>, other: seq<real>, p: Periods, i: nat)
    requires ValidPeriods(p) && i < |closes| && i < |other| && closes[..i] == other[..i]
    ensures SignalAt(closes, p, i) == SignalAt(other, p, i)
  {
    if i >= p.long {
      SameShort(closes, other, p, i);
      SameLong(closes, other, p, i);
      SamePrevShort(closes, other, p, i);
      SamePrevLong(closes, other, p, i);
    }
  }

  lemma {:induction false} SameShort(closes: seq<real>, other: seq<real>, p: Periods, i: nat)
    requires ValidPeriods(p) && p.long <= i < |closes| && i < |other| && closes[..i] == other[..i]
    ensures ShortSma(closes, p, i) == ShortSma(other, p, i)
  {
    SameSma(closes, other, i, i - p.short, i, p.short);
  }

  lemma {:induction false} SameLong(closes: seq<real>, other: seq<real>, p: Periods, i: nat)
    requires ValidPeriods(p) && p.long <= i < |closes| && i < |other| && closes[..i] == other[..i]
    ensures LongSma(closes, p, i) == LongSma(other, p, i)
  {
    SameSma(closes, other, i, i - p.long, i, p.long);
  }

  lemma {:induction false} SamePrevShort(closes: seq<real>, other: seq<real>, p: Periods, i: nat)
    requires ValidPeriods(p) && p.long <= i < |closes| && i < |other| && closes[..i] == other[..i]
    ensures PrevShort(closes, p, i) == PrevShort(other, p, i)
  {
    SameSma(closes, other, i, i - p.short - 1, i - 1, p.short);
  }

  lemma {:induction false} SamePrevLong(closes: seq<real>, other: seq<real>, p: Periods, i: nat)
    requires ValidPeriods(p) && p.long <= i < |closes| && i < |other| && closes[..i] == other[..i]
    ensures PrevLong(closes, p, i) == PrevLong(other, p, i)
  {
    if i > p.long {
      SameSma(closes, other, i, i - p.long - 1, i - 1, p.long);
    } else {
      FirstPrevLongIsZero(closes, p);
      FirstPrevLongIsZero(other, p);
    }
  }

  lemma {:induction false} SameSma(a: seq<real>, b: seq<real>, i: nat, lo: int, hi: int, period: nat)
    requires i < |a| && i < |b| && a[..i] == b[..i] && 0 <= lo <= hi <= i && period > 0
    ensures Sma(a, lo, hi, period) == Sma(b, lo, hi, period)
  {
    assert a[lo..hi] == a[..i][lo..hi] && b[lo..hi] == b[..i][lo..hi];
    assert Slice(a, lo, hi) == Slice(b, lo, hi);
  }

  // ---- What the signals mean, candle by candle ----

  /** The sum of the closes of candles `lo` to `hi - 1`. */
  function WindowSum(closes: seq<real>, lo: nat, hi: nat): real
    requires lo <= hi <= |closes|
  {
    if lo == hi then 0.0 else WindowSum(closes, lo, hi - 1) + closes[hi - 1]
  }

  lemma {:induction false} SumIsWindowSum(closes: seq<real>, lo: nat, hi: nat, k: nat)
    requires lo <= k <= hi <= |closes|
    ensures SumTo(closes[lo..hi], k - lo) == WindowSum(closes, lo, k)
  {
    if lo < k {
      SumIsWindowSum(closes, lo, hi, k - 1);
    }
  }

  /** `x` added up `n` times. */
  function Multiple(n: nat, x: real): real {
    if n == 0 then 0.0 else Multiple(n - 1, x) + x
  }

  lemma {:induction false} MultipleIsProduct(n: nat, x: real)
    ensures Multiple(n, x) == n as real * x
  {
    if n > 0 {
      MultipleIsProduct(n - 1, x);
      assert n as real * x == (n - 1) as real * x + x;
    }
  }

  /** An average times the number of candles is their sum. */
  lemma {:induction false} SmaIsAverage(closes: seq<real>, lo: nat, hi: nat, period: nat)
    requires lo <= hi <= |closes| && period > 0
    ensures Multiple(period, Sma(closes, lo, hi, period)) == WindowSum(closes, lo, hi)
  {
    SumIsWindowSum(closes, lo, hi, hi);
    assert Slice(closes, lo, hi) == closes[lo..hi];
    MultipleIsProduct(period, Sma(closes, lo, hi, period));
  }

  /** The average of a window of equal closes is that close. */
  lemma {:induction false} AverageOfConstant(closes: seq<real>, lo: nat, hi: nat, x: real)
    requires lo < hi <= |closes| && forall k :: lo <= k < hi ==> closes[k] == x
    ensures Sma(closes, lo, hi, hi - lo) == x
  {
    ConstantSum(closes, lo, hi, x);
    SmaIsAverage(closes, lo, hi, hi - lo);
    MultipleIsMonotone(hi - lo, Sma(closes, lo, hi, hi - lo), x);
    MultipleIsMonotone(hi - lo, x, Sma(closes, lo, hi, hi - lo));
  }

  lemma {:induction false} MultipleIsMonotone(n: nat, x: real, y: real)
    requires n > 0
    ensures x < y <==> Multiple(n, x) < Multiple(n, y)
  {
    if n > 1 {
      MultipleIsMonotone(n - 1, x, y);
    } else {
      assert Multiple(1, x) == x && Multiple(1, y) == y;
    }
  }

  lemma {:induction false} ConstantSum(closes: seq<real>, lo: nat, hi: nat, x: real)
    requires lo <= hi <= |closes| && forall k :: lo <= k < hi ==> closes[k] == x
    ensures WindowSum(closes, lo, hi) == Multiple(hi - lo, x)
  {
    if lo < hi {
      ConstantSum(closes, lo, hi - 1, x);
    }
  }

  lemma {:induction false} CompareQuotients(x: real, m: nat, y: real, n: nat, a: real, b: real)
    requires m > 0 && n > 0 && Multiple(m, a) == x && Multiple(n, b) == y
    ensures a > b <==> Multiple(n, x) > Multiple(m, y)
    ensures a < b <==> Multiple(n, x) < Multiple(m, y)
  {
    MultipleOfMultiple(m, n, a);
    MultipleOfMultiple(n, m, b);
    MultipleIsMonotone(m * n, a, b);
    MultipleIsMonotone(m * n, b, a);
    assert m * n == n * m;
  }

  lemma {:induction false} MultipleOfMultiple(m: nat, n: nat, a: real)
    ensures Multiple(n, Multiple(m, a)) == Multiple(m * n, a)
  {
    MultipleIsProduct(m, a);
    MultipleIsProduct(n, Multiple(m, a));
    MultipleIsProduct(m * n, a);
    assert (m * n) as real == m as real * n as real;
  }

  /** The last `short` closes before candle `i` are higher on average than the last `long` ones, over sums of closes. */
  predicate Above(closes: seq<real>, short: nat, long: nat, i: nat)
    requires short <= long <= i <= |closes|
  {
    Multiple(long, WindowSum(closes, i - short, i)) > Multiple(short, WindowSum(closes, i - long, i))
  }

  predicate Below(closes: seq<real>, short: nat, long: nat, i: nat)
    requires short <= long <= i <= |closes|
  {
    Multiple(long, WindowSum(closes, i - short, i)) < Multiple(short, WindowSum(closes, i - long, i))
  }

  lemma {:induction false} AveragesCompare(closes: seq<real>, short: nat, long: nat, i: nat)
    requires 0 < short < long <= i <= |closes|
    ensures Compares(Sma(closes, i - short, i, short), Sma(closes, i - long, i, long), Above(closes, short, long, i),
                     Below(closes, short, long, i))
  {
    SmaIsAverage(closes, i - short, i, short);
    SmaIsAverage(closes, i - long, i, long);
    CompareQuotients(WindowSum(closes, i - short, i), short, WindowSum(closes, i - long, i), long,
                     Sma(closes, i - short, i, short), Sma(closes, i - long, i, long));
  }

  predicate Compares(a: real, b: real, above: bool, below: bool) {
    (a > b <==> above) && (a < b <==> below)
  }

  lemma CrossoverIff(a: real, b: real, c: real, d: real, above: bool, below: bool, wasAbove: bool, wasBelow: bool)
    requires Compares(a, b, above, below) && Compares(c, d, wasAbove, wasBelow)
    ensures Crossover(a, b, c, d) == 1 <==> above && !wasAbove
    ensures Crossover(a, b, c, d) == -1 <==> below && !wasBelow
  {
  }

  lemma {:induction false} NextCompare(closes: seq<real>, p: Periods, i: nat)
    requires ValidPeriods(p) && p.long <= i < |closes|
    ensures Compares(ShortSma(closes, p, i), LongSma(closes, p, i), Above(closes, p.short, p.long, i),
                     Below(closes, p.short, p.long, i))
  {
    AveragesCompare(closes, p.short, p.long, i);
  }

  lemma {:induction false} PrevCompare(closes: seq<real>, p: Periods, i: nat)
    requires ValidPeriods(p) && p.long < i < |closes|
    ensures Compares(PrevShort(closes, p, i), PrevLong(closes, p, i), Above(closes, p.short, p.long, i - 1),
                     Below(closes, p.short, p.long, i - 1))
  {
    AveragesCompare(closes, p.short, p.long, i - 1);
  }

  lemma {:induction false} SignalAtIs(closes: seq<real>, p: Periods, i: nat)
    returns (a: real, b: real, c: real, d: real)
    requires ValidPeriods(p) && p.long < i < |closes|
    ensures SignalAt(closes, p, i) == Crossover(a, b, c, d)
    ensures Compares(a, b, Above(closes, p.short, p.long, i), Below(closes, p.short, p.long, i))
    ensures Compares(c, d, Above(closes, p.short, p.long, i - 1), Below(closes, p.short, p.long, i - 1))
  {
    NextCompare(closes, p, i);
    PrevCompare(closes, p, i);
    a, b := ShortSma(closes, p, i), LongSma(closes, p, i);
    c, d := PrevShort(closes, p, i), PrevLong(closes, p, i);
  }

  /**
   The generator buys at a candle exactly when `long` times the sum of the last `short` closes is above `short` times
   the sum of the last `long` ones and one candle earlier was not, and sells exactly when it is below and was not.
   */
  lemma {:induction false} SignalsAreCrossovers(closes: seq<real>, p: Periods, i: nat)
    requires ValidPeriods(p) && p.long < i < |closes|
    ensures Signals(closes, p)[i] == 1 <==> Above(closes, p.short, p.long, i) && !Above(closes, p.short, p.long, i - 1)
    ensures Signals(closes, p)[i] == -1 <==> Below(closes, p.short, p.long, i) && !Below(closes, p.short, p.long, i - 1)
  {
    var a, b, c, d := SignalAtIs(closes, p, i);
    CrossoverIff(a, b, c, d, Above(closes, p.short, p.long, i), Below(closes, p.short, p.long, i),
                 Above(closes, p.short, p.long, i - 1), Below(closes, p.short, p.long, i - 1));
  }

  lemma {:induction false} SmaSign(closes: seq<real>, lo: nat, hi: nat, period: nat)
    requires lo <= hi <= |closes| && period > 0
    ensures Compares(Sma(closes, lo, hi, period), 0.0, WindowSum(closes, lo, hi) > 0.0, WindowSum(closes, lo, hi) < 0.0)
  {
    var a := Sma(closes, lo, hi, period);
    SmaIsAverage(closes, lo, hi, period);
    MultipleIsMonotone(period, 0.0, a);
    MultipleIsMonotone(period, a, 0.0);
    MultipleIsProduct(period, 0.0);
  }

  lemma {:induction false} FirstPrevCompare(closes: seq<real>, p: Periods, i: nat)
    requires ValidPeriods(p) && i == p.long < |closes|
    ensures Compares(PrevShort(closes, p, i), PrevLong(closes, p, i), WindowSum(closes, i - p.short - 1, i - 1) > 0.0,
                     WindowSum(closes, i - p.short - 1, i - 1) < 0.0)
  {
    FirstPrevLongIsZero(closes, p);
    SmaSign(closes, i - p.short - 1, i - 1, p.short);
  }

  lemma {:induction false} FirstSignalIs(closes: seq<real>, p: Periods, i: nat)
    returns (a: real, b: real, c: real, d: real)
    requires ValidPeriods(p) && i == p.long < |closes|
    ensures SignalAt(closes, p, i) == Crossover(a, b, c, d)
    ensures Compares(a, b, Above(closes, p.short, p.long, i), Below(closes, p.short, p.long, i))
    ensures Compares(c, d, WindowSum(closes, i - p.short - 1, i - 1) > 0.0,
                     WindowSum(closes, i - p.short - 1, i - 1) < 0.0)
  {
    NextCompare(closes, p, i);
    FirstPrevCompare(closes, p, i);
    a, b := ShortSma(closes, p, i), LongSma(closes, p, i);
    c, d := PrevShort(closes, p, i), PrevLong(closes, p, i);
  }

  /** At the first index the long average one candle earlier counts as 0. No signal comes before that index. */
  lemma {:induction false} FirstSignals(closes: seq<real>, p: Periods, i: nat)
    requires ValidPeriods(p) && i <= p.long && i < |closes|
    ensures i < p.long ==> Signals(closes, p)[i] == 0
    ensures i == p.long ==>
              && (Signals(closes, p)[i] == 1 <==>
                    Above(closes, p.short, p.long, i) && WindowSum(closes, i - p.short - 1, i - 1) <= 0.0)
              && (Signals(closes, p)[i] == -1 <==>
                    Below(closes, p.short, p.long, i) && WindowSum(closes, i - p.short - 1, i - 1) >= 0.0)
  {
    if i == p.long {
      var a, b, c, d := FirstSignalIs(closes, p, i);
      CrossoverIff(a, b, c, d, Above(closes, p.short, p.long, i), Below(closes, p.short, p.long, i),
                   WindowSum(closes, i - p.short - 1, i - 1) > 0.0, WindowSum(closes, i - p.short - 1, i - 1) < 0.0);
    }
  }

  lemma {:induction false} HashOfConcat(a: string, b: string)
    ensures HashOf(a + b) == HashOf(a) + HashOf(b)
  {
    if b == "" {
      assert a + b == a;
    } else {
      assert (a + b)[..|a + b| - 1] == a + b[..|b| - 1];
      HashOfConcat(a, b[..|b| - 1]);
    }
  }

  lemma LastDigit(h: nat)
    ensures h % 10 == if h % 20 < 10 then h % 20 else h % 20 - 10
  {
    var q, r := h / 20, h % 20;
    assert h == 10 * (2 * q) + r;
    if r < 10 {
      assert h / 10 == 2 * q;
    } else {
      assert h / 10 == 2 * q + 1;
    }
  }

  /**
   The periods an id selects: of its characters only the sum matters, and of that only the remainder by 20. The long
   period is always 10 or 20 above the short one, so both `max` calls of the program are idle.
   */
  lemma {:induction false} PeriodsOfHash(id: string)
    ensures var p, r := PeriodsOf(id), HashOf(id) % 20;
            && p.long == 15 + r && p.short == (if r < 10 then 5 + r else r - 5)
            && p.long - p.short == (if r < 10 then 10 else 20)
  {
    LastDigit(HashOf(id));
  }

  /** Two ids select the same strategy if and only if their character sums agree modulo 20. */
  lemma {:induction false} SamePeriodsIff(a: string, b: string)
    ensures PeriodsOf(a) == PeriodsOf(b) <==> HashOf(a) % 20 == HashOf(b) % 20
  {
    PeriodsOfHash(a);
    PeriodsOfHash(b);
  }

  /** So the order of the characters does not matter; one character more moves the sum by its code. */
  lemma {:induction false} OrderOfCharactersIsIrrelevant(a: string, b: string, c: char)
    ensures PeriodsOf(a + b) == PeriodsOf(b + a)
    ensures HashOf([c]) == c as nat && HashOf("") == 0
    ensures PeriodsOf("") == Periods(5, 15) && PeriodsOf("a") == Periods(12, 32)
  {
    HashOfConcat(a, b);
    HashOfConcat(b, a);
    assert [c][..0] == [] && "a"[..0] == "";
    assert HashOf("a") == 97;
  }
}
