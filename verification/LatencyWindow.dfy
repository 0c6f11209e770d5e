/** The latency buffer of the adaptive scheduler: kept sorted, and evicted from its low end. */
module LatencyWindow {

  predicate Sorted(s: seq<real>) {
    forall i, j :: 0 <= i < j < |s| ==> s[i] <= s[j]
  }

  /** `bisect.bisect_right` */
  function Position(s: seq<real>, x: real): (p: nat)
    ensures p <= |s|
    ensures forall i :: p <= i < |s| ==> x < s[i]
    ensures p > 0 ==> s[p - 1] <= x
  {
    if s == [] then 0
    else if s[|s| - 1] <= x then |s|
    else
      var init := s[..|s| - 1];
      var p := Position(init, x);
      assert forall i :: 0 <= i < |init| ==> init[i] == s[i];
      p
  }

  /** `bisect.insort` */
  function Insort(s: seq<real>, x: real): (r: seq<real>)
    ensures |r| == |s| + 1
  {
    var p := Position(s, x);
    s[..p] + [x] + s[p..]
  }

  lemma {:induction false} InsortMultiset(s: seq<real>, x: real)
    ensures multiset(Insort(s, x)) == multiset(s) + multiset{x}
  {
    var p := Position(s, x);
    assert s == s[..p] + s[p..];
  }

  lemma {:induction false} InsortSorted(s: seq<real>, x: real)
    requires Sorted(s)
    ensures Sorted(Insort(s, x))
  {
    var p, r := Position(s, x), Insort(s, x);
    forall i, j | 0 <= i < j < |r|
      ensures r[i] <= r[j]
    {
      assert p > 0 && i < p ==> s[i] <= s[p - 1];
    }
  }

  /** `record_latency`: insert, then drop index 0 if the buffer outgrew the window. */
  function Record(buffer: seq<real>, x: real, window: int): (r: seq<real>) {
    var grown := Insort(buffer, x);
    if |grown| > window then grown[1..] else grown
  }

  /** The buffer after recording the samples, oldest first. */
  function Buffer(samples: seq<real>, window: int): seq<real> {
    if samples == [] then []
    else Record(Buffer(samples[..|samples| - 1], window), samples[|samples| - 1], window)
  }

  function Size(window: int, count: nat): nat {
    if window <= 0 then 0 else if count < window then count else window
  }

  /** `kept` is a selection of `all`, and nothing left out is larger than anything kept. */
  ghost predicate LargestOf(kept: multiset<real>, all: multiset<real>) {
    kept <= all && forall dropped, k :: dropped in all - kept && k in kept ==> dropped <= k
  }

  lemma {:induction false} HeadIsSmallest(s: seq<real>)
    requires s != [] && Sorted(s)
    ensures multiset(s) == multiset{s[0]} + multiset(s[1..])
    ensures forall y :: y in multiset(s) ==> s[0] <= y
  {
    assert s == [s[0]] + s[1..];
    forall y | y in multiset(s)
      ensures s[0] <= y
    {
      assert y in s;
    }
  }

  /** The buffer is sorted and holds exactly the `window` largest of all samples recorded since the last reset. */
  lemma {:induction false} BufferHoldsTheLargest(samples: seq<real>, window: int)
    ensures var b := Buffer(samples, window);
            Sorted(b) && |b| == Size(window, |samples|) && LargestOf(multiset(b), multiset(samples))
  {
    if samples != [] {
      var init, x := samples[..|samples| - 1], samples[|samples| - 1];
      assert samples == init + [x];
      BufferHoldsTheLargest(init, window);
      RecordSorted(Buffer(init, window), x, window, |init|);
      RecordKeepsTheLargest(Buffer(init, window), init, x, window);
      assert multiset(samples) == multiset(init) + multiset{x};
    }
  }

  lemma {:induction false} RecordSorted(buffer: seq<real>, x: real, window: int, count: nat)
    requires Sorted(buffer) && |buffer| == Size(window, count)
    ensures Sorted(Record(buffer, x, window)) && |Record(buffer, x, window)| == Size(window, count + 1)
  {
    InsortSorted(buffer, x);
  }

  lemma {:induction false} RecordKeepsTheLargest(buffer: seq<real>, init: seq<real>, x: real, window: int)
    requires Sorted(buffer) && |buffer| == Size(window, |init|) && LargestOf(multiset(buffer), multiset(init))
    ensures LargestOf(multiset(Record(buffer, x, window)), multiset(init) + multiset{x})
  {
    var grown := Insort(buffer, x);
    InsortMultiset(buffer, x);
    if |grown| <= window {
      SameSize(multiset(buffer), multiset(init));
    } else {
      HeadIsSmallestAfterInsort(buffer, x);
      EvictKeepsTheLargest(multiset(buffer), multiset(init), x, grown[0]);
      assert multiset(grown[1..]) == multiset(buffer) + multiset{x} - multiset{grown[0]};
    }
  }

  lemma {:induction false} HeadIsSmallestAfterInsort(buffer: seq<real>, x: real)
    requires Sorted(buffer)
    ensures var grown := Insort(buffer, x);
            && multiset(buffer) + multiset{x} == multiset{grown[0]} + multiset(grown[1..])
            && forall y :: y in multiset(buffer) + multiset{x} ==> grown[0] <= y
  {
    InsortMultiset(buffer, x);
    InsortSorted(buffer, x);
    HeadIsSmallest(Insort(buffer, x));
  }

  lemma {:induction false} SameSize(kept: multiset<real>, all: multiset<real>)
    requires kept <= all && |kept| == |all|
    ensures kept == all
  {
    assert all == kept + (all - kept);
    assert |all - kept| == 0;
  }

  lemma {:induction false} EvictKeepsTheLargest(kept: multiset<real>, all: multiset<real>, x: real, low: real)
    requires LargestOf(kept, all)
    requires low in kept + multiset{x} && forall y :: y in kept + multiset{x} ==> low <= y
    ensures LargestOf(kept + multiset{x} - multiset{low}, all + multiset{x})
  {
    var kept', all' := kept + multiset{x} - multiset{low}, all + multiset{x};
    assert all' - kept' == (all - kept) + multiset{low};
    forall d, k | d in all' - kept' && k in kept'
      ensures d <= k
    {
      assert k in kept + multiset{x};
      if d in all - kept && k !in kept {
        assert k == x;
        assert low in kept;
      }
    }
  }

  // ---- The promised rolling window ----

  function LastSamples(samples: seq<real>, window: nat): seq<real>
    requires window <= |samples|
  {
    samples[|samples| - window..]
  }

  lemma MoreOf(a: multiset<real>, b: multiset<real>) returns (x: real)
    requires a != b && |a| == |b|
    ensures a[x] > b[x]
  {
    if forall x :: a[x] <= b[x] {
      SameSize(a, b);
    }
    x :| a[x] > b[x];
  }

  lemma MoreIsSmaller(a: multiset<real>, b: multiset<real>, all: multiset<real>, x: real, y: real)
    requires a <= all && LargestOf(b, all) && a[x] > b[x] && b[y] > a[y]
    ensures x <= y
  {
    assert x in all - b && y in b;
  }

  /** Two selections of the same size that leave out nothing larger are the same. */
  lemma LargestAreUnique(a: multiset<real>, b: multiset<real>, all: multiset<real>)
    requires LargestOf(a, all) && LargestOf(b, all) && |a| == |b|
    ensures a == b
  {
    if a != b {
      var x := MoreOf(a, b);
      var y := MoreOf(b, a);
      MoreIsSmaller(a, b, all, x, y);
      MoreIsSmaller(b, a, all, y, x);
    }
  }

  ghost predicate NothingLeftWasLarger(samples: seq<real>, window: nat)
    requires window <= |samples|
  {
    forall i, j :: 0 <= i < |samples| - window <= j < |samples| ==> samples[i] <= samples[j]
  }

  lemma LargestMeansLeftIsSmaller(first: seq<real>, last: seq<real>)
    ensures LargestOf(multiset(last), multiset(first) + multiset(last)) <==>
              forall i, j :: 0 <= i < |first| && 0 <= j < |last| ==> first[i] <= last[j]
  {
    assert multiset(first) + multiset(last) - multiset(last) == multiset(first);
    assert forall i :: 0 <= i < |first| ==> first[i] in multiset(first);
    assert forall j :: 0 <= j < |last| ==> last[j] in multiset(last);
  }

  lemma LastAreLargestIff(samples: seq<real>, window: nat)
    requires window <= |samples|
    ensures LargestOf(multiset(LastSamples(samples, window)), multiset(samples)) <==>
              NothingLeftWasLarger(samples, window)
  {
    var first, last := samples[..|samples| - window], LastSamples(samples, window);
    assert samples == first + last;
    LargestMeansLeftIsSmaller(first, last);
    if NothingLeftWasLarger(samples, window) {
      assert forall j :: 0 <= j < |last| ==> last[j] == samples[|first| + j];
    } else {
      var i, j :| 0 <= i < |samples| - window <= j < |samples| && samples[i] > samples[j];
      assert first[i] > last[j - |first|];
    }
  }

  /**
   The buffer is documented as a rolling window. It holds the last samples exactly when no sample that should have left
   is larger than one of them.
   */
  lemma {:induction false} RollingIffNothingLeftWasLarger(samples: seq<real>, window: nat)
    requires 0 < window <= |samples|
    ensures multiset(Buffer(samples, window)) == multiset(LastSamples(samples, window)) <==>
              NothingLeftWasLarger(samples, window)
  {
    var kept, last := multiset(Buffer(samples, window)), multiset(LastSamples(samples, window));
    BufferHoldsTheLargest(samples, window);
    LastAreLargestIff(samples, window);
    if LargestOf(last, multiset(samples)) {
      LargestAreUnique(kept, last, multiset(samples));
    }
  }

  lemma {:induction false} InsortAt(s: seq<real>, x: real, p: nat)
    requires p <= |s| && (forall i :: 0 <= i < p ==> s[i] <= x) && forall i :: p <= i < |s| ==> x < s[i]
    ensures Insort(s, x) == s[..p] + [x] + s[p..]
  {
    var q := Position(s, x);
    assert (q < |s| ==> x < s[q]) && (q > 0 ==> s[q - 1] <= x);
  }

  lemma {:induction false} BufferOfNineOne()
    ensures Buffer([9.0, 1.0], 2) == [1.0, 9.0]
  {
    BufferOfSnoc([], 9.0, 2);
    BufferOfSnoc([9.0], 1.0, 2);
    InsortAt([], 9.0, 0);
    InsortAt([9.0], 1.0, 0);
    assert [] + [9.0] == [9.0] && [9.0] + [1.0] == [9.0, 1.0];
  }

  /** Two slots, samples 9, 1, 2: a rolling window would hold 1 and 2; the buffer still holds the 9. */
  lemma {:induction false} NotARollingWindow()
    ensures Buffer([9.0, 1.0, 2.0], 2) == [2.0, 9.0] && LastSamples([9.0, 1.0, 2.0], 2) == [1.0, 2.0]
  {
    BufferOfNineOne();
    BufferOfSnoc([9.0, 1.0], 2.0, 2);
    InsortAt([1.0, 9.0], 2.0, 1);
    assert [9.0, 1.0] + [2.0] == [9.0, 1.0, 2.0];
  }

  lemma {:induction false} BufferOfSnoc(samples: seq<real>, x: real, window: int)
    ensures Buffer(samples + [x], window) == Record(Buffer(samples, window), x, window)
  {
    assert (samples + [x])[..|samples|] == samples;
  }

  // ---- Percentiles ----

  datatype Level = P95 | P99

  /** `int(n * 0.95)` and `int(n * 0.99)`, the product exact. */
  function Index(n: nat, level: Level): (i: nat)
    ensures n > 0 ==> i < n
    ensures level.P99? && 0 < n <= 100 ==> i == n - 1
  {
    match level
    case P95 => n * 95 / 100
    case P99 => n * 99 / 100
  }

  lemma {:induction false} IndexOrder(n: nat)
    ensures Index(n, P95) <= Index(n, P99)
  {
  }

  function Percentile(buffer: seq<real>, level: Level): real
    requires buffer != []
  {
    buffer[Index(|buffer|, level)]
  }

  /** Recording lowers no position counted from the top of the buffer. */
  lemma {:induction false} InsortRaisesEveryPosition(buffer: seq<real>, x: real, i: nat)
    requires Sorted(buffer) && i < |buffer|
    ensures buffer[i] <= Insort(buffer, x)[i + 1]
  {
  }

  // ---- The scheduler's advice ----

  datatype Config = Config(window: int, p95Threshold: real, p99Threshold: real, defaultBatch: int, reducedBatch: int,
                           defaultTimeout: real, extendedTimeout: real)

  datatype Advice = Advice(batchSize: int, timeout: real, skip: bool, p95: real, p99: real, count: nat)

  /** `get_state` */
  function GetState(buffer: seq<real>, c: Config): (a: Advice)
    ensures Sorted(buffer) ==> a.p95 <= a.p99
    ensures a.count == |buffer|
    ensures a.skip <==> |buffer| >= 3 && a.p99 > c.p99Threshold
  {
    if |buffer| < 3 then Advice(c.defaultBatch, c.defaultTimeout, false, 0.0, 0.0, |buffer|)
    else
      var p95, p99 := Percentile(buffer, P95), Percentile(buffer, P99);
      IndexOrder(|buffer|);
      var high := p95 > c.p95Threshold;
      Advice(if high then c.reducedBatch else c.defaultBatch, if high then c.extendedTimeout else c.defaultTimeout,
             p99 > c.p99Threshold, p95, p99, |buffer|)
  }

  lemma {:induction false} FullBufferNeverFalls(buffer: seq<real>, x: real, c: Config)
    requires Sorted(buffer) && |buffer| == c.window >= 3
    ensures var before, after := GetState(buffer, c), GetState(Record(buffer, x, c.window), c);
            before.p95 <= after.p95 && before.p99 <= after.p99 && after.count == c.window
  {
    InsortRaisesEveryPosition(buffer, x, Index(c.window, P95));
    InsortRaisesEveryPosition(buffer, x, Index(c.window, P99));
  }

  /** Once the buffer is full neither percentile ever decreases. */
  lemma {:induction false} PercentilesNeverFall(samples: seq<real>, x: real, c: Config)
    requires 3 <= c.window <= |samples|
    ensures var before, after := GetState(Buffer(samples, c.window), c), GetState(Buffer(samples + [x], c.window), c);
            before.p95 <= after.p95 && before.p99 <= after.p99
  {
    BufferHoldsTheLargest(samples, c.window);
    BufferOfSnoc(samples, x, c.window);
    FullBufferNeverFalls(Buffer(samples, c.window), x, c);
  }

  // ---- When the advice is to skip, and for how long ----

  /** How many of the samples are above the threshold. */
  function Above(s: seq<real>, threshold: real): (n: nat)
    ensures n <= |s|
  {
    if s == [] then 0 else Above(s[..|s| - 1], threshold) + if s[|s| - 1] > threshold then 1 else 0
  }

  lemma {:induction false} AboveOfConcat(a: seq<real>, b: seq<real>, threshold: real)
    ensures Above(a + b, threshold) == Above(a, threshold) + Above(b, threshold)
  {
    if b == [] {
      assert a + b == a;
    } else {
      assert (a + b)[..|a + b| - 1] == a + b[..|b| - 1];
      AboveOfConcat(a, b[..|b| - 1], threshold);
    }
  }

  lemma {:induction false} AllAbove(s: seq<real>, threshold: real)
    ensures (forall y :: y in s ==> y > threshold) ==> Above(s, threshold) == |s|
    ensures (forall y :: y in s ==> y <= threshold) <==> Above(s, threshold) == 0
  {
    if s != [] {
      var init, last := s[..|s| - 1], s[|s| - 1];
      AllAbove(init, threshold);
      assert last in s && forall y :: y in init ==> y in s;
      assert forall y :: y in s ==> y in init || y == last;
    }
  }

  lemma {:induction false} AboveOfInsort(s: seq<real>, x: real, threshold: real)
    ensures Above(Insort(s, x), threshold) == Above(s, threshold) + if x > threshold then 1 else 0
  {
    var p := Position(s, x);
    assert s == s[..p] + s[p..];
    assert [x][..0] == [];
    AboveOfConcat(s[..p], s[p..], threshold);
    AboveOfConcat(s[..p], [x], threshold);
    AboveOfConcat(s[..p] + [x], s[p..], threshold);
  }

  /** Evicting the smallest loses a slow sample only if all are slow. */
  lemma {:induction false} AboveOfRecord(buffer: seq<real>, x: real, window: int, threshold: real)
    requires Sorted(buffer)
    ensures var r, n := Record(buffer, x, window), Above(buffer, threshold) + if x > threshold then 1 else 0;
            Above(r, threshold) == if n < |r| then n else |r|
  {
    var grown := Insort(buffer, x);
    AboveOfInsort(buffer, x, threshold);
    if |grown| > window {
      InsortSorted(buffer, x);
      assert grown == [grown[0]] + grown[1..] && [grown[0]][..0] == [];
      AboveOfConcat([grown[0]], grown[1..], threshold);
      if grown[0] > threshold {
        AllAbove(grown[1..], threshold);
      }
    }
  }

  /** The buffer holds as many slow samples as it has room for. */
  lemma {:induction false} AboveOfBuffer(samples: seq<real>, window: int, threshold: real)
    ensures var n, slow := Size(window, |samples|), Above(samples, threshold);
            Above(Buffer(samples, window), threshold) == if slow < n then slow else n
  {
    if samples != [] {
      var init, x := samples[..|samples| - 1], samples[|samples| - 1];
      AboveOfBuffer(init, window, threshold);
      BufferHoldsTheLargest(init, window);
      BufferHoldsTheLargest(samples, window);
      AboveOfRecord(Buffer(init, window), x, window, threshold);
    }
  }

  lemma {:induction false} AboveOfSorted(s: seq<real>, threshold: real, i: nat)
    requires Sorted(s) && i < |s|
    ensures s[i] > threshold <==> Above(s, threshold) >= |s| - i
  {
    if s[i] > threshold {
      assert s == s[..i] + s[i..];
      AboveOfConcat(s[..i], s[i..], threshold);
      AllAbove(s[i..], threshold);
    } else {
      assert s == s[..i + 1] + s[i + 1..];
      AboveOfConcat(s[..i + 1], s[i + 1..], threshold);
      AllAbove(s[..i + 1], threshold);
    }
  }

  lemma {:induction false} AtIndexIff(n: nat, level: Level, slow: nat)
    requires n > 0
    ensures slow >= n - Index(n, level) <==> (if level.P95? then 20 else 100) * slow >= n
  {
  }

  /**
   The advice is to skip exactly when one in a hundred of as many samples as the buffer holds was slow, counting ALL
   samples since the last reset, whenever they came.
   */
  lemma {:induction false} SkipIffEnoughSlow(samples: seq<real>, c: Config)
    ensures var n := Size(c.window, |samples|);
            GetState(Buffer(samples, c.window), c).skip <==> n >= 3 && 100 * Above(samples, c.p99Threshold) >= n
  {
    var b := Buffer(samples, c.window);
    BufferHoldsTheLargest(samples, c.window);
    AboveOfBuffer(samples, c.window, c.p99Threshold);
    if |b| >= 3 {
      AboveOfSorted(b, c.p99Threshold, Index(|b|, P99));
      AtIndexIff(|b|, P99, Above(samples, c.p99Threshold));
    }
  }

  /** In the same way one in twenty decides about the batch, which is reduced, and the timeout, which is extended. */
  lemma {:induction false} ReducedIffEnoughSlow(samples: seq<real>, c: Config)
    ensures var n, a := Size(c.window, |samples|), GetState(Buffer(samples, c.window), c);
            (a.batchSize, a.timeout) == if n >= 3 && 20 * Above(samples, c.p95Threshold) >= n
                                        then (c.reducedBatch, c.extendedTimeout)
                                        else (c.defaultBatch, c.defaultTimeout)
  {
    var b := Buffer(samples, c.window);
    BufferHoldsTheLargest(samples, c.window);
    AboveOfBuffer(samples, c.window, c.p95Threshold);
    if |b| >= 3 {
      AboveOfSorted(b, c.p95Threshold, Index(|b|, P95));
      AtIndexIff(|b|, P95, Above(samples, c.p95Threshold));
    }
  }

  /** With a window of at most 100, one slow sample is enough. */
  lemma {:induction false} OneSlowSampleIsEnough(samples: seq<real>, c: Config)
    requires 3 <= c.window <= 100
    ensures GetState(Buffer(samples, c.window), c).skip <==>
              |samples| >= 3 && exists x :: x in samples && x > c.p99Threshold
  {
    SkipIffEnoughSlow(samples, c);
    AllAbove(samples, c.p99Threshold);
  }

  /** Advice to skip outlasts every further sample when there are enough slow samples for a full window. */
  lemma {:induction false} SkipIsForever(samples: seq<real>, more: seq<real>, c: Config)
    requires GetState(Buffer(samples, c.window), c).skip && 100 * Above(samples, c.p99Threshold) >= c.window
    ensures GetState(Buffer(samples + more, c.window), c).skip
  {
    SkipIffEnoughSlow(samples, c);
    SkipIffEnoughSlow(samples + more, c);
    AboveOfConcat(samples, more, c.p99Threshold);
  }

  /** And only then: otherwise enough samples at the threshold end it. */
  lemma {:induction false} SkipIsForeverIff(samples: seq<real>, c: Config)
    requires GetState(Buffer(samples, c.window), c).skip
    ensures (forall more: seq<real> :: GetState(Buffer(samples + more, c.window), c).skip) <==>
              100 * Above(samples, c.p99Threshold) >= c.window
  {
    SkipIffEnoughSlow(samples, c);
    if 100 * Above(samples, c.p99Threshold) >= c.window {
      forall more: seq<real>
        ensures GetState(Buffer(samples + more, c.window), c).skip
      {
        SkipIsForever(samples, more, c);
      }
    } else {
      var fast := seq(c.window, _ => c.p99Threshold);
      AllAbove(fast, c.p99Threshold);
      AboveOfConcat(samples, fast, c.p99Threshold);
      SkipIffEnoughSlow(samples + fast, c);
    }
  }

  /** For a window of at most 100 samples, or one that is full, skip advice is always for ever. */
  lemma {:induction false} SmallOrFullWindowSkipsForever(samples: seq<real>, more: seq<real>, c: Config)
    requires c.window <= 100 || c.window <= |samples|
    requires GetState(Buffer(samples, c.window), c).skip
    ensures GetState(Buffer(samples + more, c.window), c).skip
  {
    SkipIffEnoughSlow(samples, c);
    SkipIsForever(samples, more, c);
  }

  /** For a larger window the 101st sample can end it: one slow sample among 100 is too few among 101. */
  lemma {:induction false} LargeWindowCanRecover(c: Config) returns (samples: seq<real>)
    requires c.window > 100
    ensures |samples| == 100 && GetState(Buffer(samples, c.window), c).skip
    ensures !GetState(Buffer(samples + [c.p99Threshold], c.window), c).skip
  {
    var t := c.p99Threshold;
    var fast := seq(99, _ => t);
    samples := fast + [t + 1.0];
    AllAbove(fast, t);
    AllAbove([t + 1.0], t);
    AllAbove([t], t);
    AboveOfConcat(fast, [t + 1.0], t);
    AboveOfConcat(samples, [t], t);
    SkipIffEnoughSlow(samples, c);
    SkipIffEnoughSlow(samples + [t], c);
  }

  class AdaptiveScheduler {
    const config: Config
    var latencies: seq<real>
    ghost var samples: seq<real>  // everything recorded since the last reset

    ghost predicate Valid()
      reads this
    {
      latencies == Buffer(samples, config.window)
    }

    constructor (config: Config)
      ensures Valid() && samples == [] && this.config == config
    {
      this.config := config;
      latencies, samples := [], [];
    }

    method RecordLatency(latency: real)
      requires Valid()
      modifies this
      ensures Valid() && samples == old(samples) + [latency]
      ensures Sorted(latencies) && |latencies| == Size(config.window, |samples|)
      ensures LargestOf(multiset(latencies), multiset(samples))
    {
      latencies := Insort(latencies, latency);
      if |latencies| > config.window {
        latencies := latencies[1..];
      }
      samples := samples + [latency];
      BufferHoldsTheLargest(samples, config.window);
    }

    function CurrentState(): Advice
      reads this`latencies
    {
      GetState(latencies, config)
    }

    method Reset()
      modifies this
      ensures Valid() && samples == []
    {
      latencies, samples := [], [];
    }
  }
}
