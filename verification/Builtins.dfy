/** Python's `max`, `min`, `abs` and products of numbers, and its list slices. */
module Builtins {

  function Max(x: real, y: real): real { if y > x then y else x }

  function Min(x: real, y: real): real { if y < x then y else x }

  function Abs(x: real): real { if x < 0.0 then -x else x }

  function Times(x: real, y: real): real { x * y }

  lemma TimesIsMonotone(x: real, y: real, factor: real)
    requires x <= y && factor >= 0.0
    ensures Times(x, factor) <= Times(y, factor) && Times(factor, x) <= Times(factor, y)
  {
    assert (y - x) * factor >= 0.0;
  }

  lemma TimesKeepsSign(x: real, y: real)
    requires y > 0.0
    ensures x > 0.0 <==> Times(x, y) > 0.0
    ensures x < 0.0 <==> Times(x, y) < 0.0
    ensures Times(x, y) == Times(y, x)
  {
  }

  lemma ShareAtLeast(k: nat, n: nat, fifths: nat)
    requires n > 0
    ensures k as real / n as real >= fifths as real / 5.0 <==> 5 * k >= fifths * n
  {
    var q := k as real / n as real;
    assert q * n as real == k as real;
    if 5 * k >= fifths * n {
      assert (q - fifths as real / 5.0) * n as real >= 0.0;
    } else {
      assert (q - fifths as real / 5.0) * n as real < 0.0;
    }
  }

  /** `s[lo:hi]`: a negative bound counts from the end, bounds are clipped, and a crossed range is empty. */
  function Slice<T>(s: seq<T>, lo: int, hi: int): seq<T> {
    var l, h := ClipBound(|s|, lo), ClipBound(|s|, hi);
    if l <= h then s[l..h] else []
  }

  function ClipBound(length: nat, bound: int): (b: nat)
    ensures b <= length
  {
    if bound < 0 then (if bound + length < 0 then 0 else bound + length)
    else if bound > length then length else bound
  }
}
