/** The few facts about products and quotients of reals that the backtest proofs need, each kept on its own. */
module Ratios {

  /** `x` carried from price `from` to price `to`. */
  function Scaled(x: real, to: real, from: real): real
    requires from != 0.0
  {
    x * to / from
  }

  /** `x` grown by the factor `growth`. */
  function Grown(x: real, growth: real): real {
    x * growth
  }

  lemma ScaledPositive(x: real, to: real, from: real)
    requires x > 0.0 && to > 0.0 && from > 0.0
    ensures Scaled(x, to, from) > 0.0
  {
    var r := x * to / from;
    assert x * to > 0.0;
    assert r * from == x * to;
  }

  lemma ScaledToItself(x: real, price: real)
    requires price != 0.0
    ensures Scaled(x, price, price) == x
  {
  }

  lemma ScaledTwice(x: real, a: real, b: real, c: real)
    requires a != 0.0 && b != 0.0
    ensures Scaled(Scaled(x, b, a), c, b) == Scaled(x, c, a)
  {
    var y := x / a;
    assert x * b / a == y * b;
    assert x * c / a == y * c;
    assert y * b * c / b == y * c;
  }

  /** Cash plus the gain on a position bought with all of it. */
  lemma InvestedValue(cash: real, entry: real, price: real)
    requires entry != 0.0
    ensures cash + (price - entry) * (cash / entry) == Scaled(cash, price, entry)
  {
    var q := cash / entry;
    assert q * entry == cash;
    assert cash * price / entry == q * price;
    assert (price - entry) * q == price * q - entry * q;
  }

  lemma ScaledProduct(x: real, g: real, to: real, from: real)
    requires from != 0.0
    ensures Scaled(Grown(x, g), to, from) == Grown(x, Scaled(g, to, from))
  {
    assert (x * g) * to / from == x * (g * to / from);
  }

  function PeriodReturn(previous: real, equity: real): real
    requires previous > 0.0
  {
    (equity - previous) / previous
  }

  /** A growth factor compounded with one more period return. */
  function Compounded(growth: real, r: real): real {
    growth * (1.0 + r)
  }

  lemma GrowthOfReturn(start: real, previous: real, current: real, growth: real)
    requires previous > 0.0 && Grown(start, growth) == previous
    ensures Grown(start, Compounded(growth, PeriodReturn(previous, current))) == current
  {
    var r := (current - previous) / previous;
    assert r * previous == current - previous;
    assert start * (growth * (1.0 + r)) == (start * growth) * (1.0 + r) == previous + previous * r;
  }

  lemma RatioOf(start: real, growth: real, value: real)
    requires start != 0.0 && Grown(start, growth) == value
    ensures growth == value / start
  {
  }

  lemma RatioMinusOne(start: real, growth: real, value: real)
    requires start != 0.0 && value == Grown(start, growth)
    ensures (value - start) / start == growth - 1.0
  {
    assert start * (growth - 1.0) == value - start;
    RatioOf(start, growth - 1.0, value - start);
  }

  lemma ShareOf(part: nat, whole: nat)
    requires part <= whole && whole > 0
    ensures 0.0 <= part as real / whole as real <= 1.0
  {
    var q := part as real / whole as real;
    assert q * whole as real == part as real;
  }

  function Drawdown(peak: real, value: real): real
    requires peak > 0.0
  {
    (peak - value) / peak
  }

  lemma PositiveFactor(x: real, y: real)
    requires x * y > 0.0 && y > 0.0
    ensures x > 0.0
  {
  }

  lemma DrawdownBelowOne(peak: real, value: real)
    requires peak > 0.0 && value > 0.0
    ensures Drawdown(peak, value) < 1.0
  {
    var d := Drawdown(peak, value);
    assert d * peak == peak - value && (1.0 - d) * peak == value;
    PositiveFactor(1.0 - d, peak);
  }

  /** The higher the peak, the deeper the drawdown to the same value. */
  lemma HigherPeakDeeperDrawdown(low: real, high: real, value: real)
    requires 0.0 < low <= high && value > 0.0
    ensures Drawdown(low, value) <= Drawdown(high, value)
  {
    var l, h := Drawdown(low, value), Drawdown(high, value);
    var a, b := 1.0 - l, 1.0 - h;
    assert a * low == value;
    assert b * high == value;
    assert b * high > 0.0;
    PositiveFactor(b, high);
    assert b * (high - low) >= 0.0;
    assert b * low <= value;
    assert (a - b) * low >= 0.0;
  }
}
