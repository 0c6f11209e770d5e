/** Circuit breaker and retry with exponential backoff of the agent orchestration layer. */
module Resilience {
  import opened Builtins
  import opened Wrappers

  const DEFAULT_THRESHOLD: int := 3
  const DEFAULT_RECOVERY: real := 300.0

  datatype Phase = CLOSED | OPEN | HALF_OPEN

  datatype Limits = Limits(threshold: int, recovery: real)

  datatype Breaker = Breaker(phase: Phase, failures: int, lastFailure: real)

  const FRESH := Breaker(CLOSED, 0, 0.0)

  /** `allow_request` */
  function Allow(b: Breaker, l: Limits, now: real): (Breaker, bool) {
    match b.phase
    case CLOSED => (b, true)
    case OPEN => if now - b.lastFailure >= l.recovery then (b.(phase := HALF_OPEN), true) else (b, false)
    case HALF_OPEN => (b, true)
  }

  /** `record_success` */
  function RecordSuccess(b: Breaker): Breaker {
    b.(phase := CLOSED, failures := 0)
  }

  /** `record_failure` */
  function RecordFailure(b: Breaker, l: Limits, now: real): Breaker {
    Breaker(if b.failures + 1 >= l.threshold then OPEN else b.phase, b.failures + 1, now)
  }

  predicate BreakerInv(b: Breaker, l: Limits) {
    && b.failures >= 0
    && (b.phase == CLOSED <==> b.failures < l.threshold)
  }

  class CircuitBreaker {
    const limits: Limits
    var phase: Phase
    var failures: int
    var lastFailure: real

    function View(): Breaker
      reads this
    {
      Breaker(phase, failures, lastFailure)
    }

    /** A zero threshold or recovery time means the default, as Python's `or` reads it. */
    constructor (threshold: int, recovery: real)
      ensures limits == Limits(if threshold == 0 then 3 else threshold, if recovery == 0.0 then 300.0 else recovery)
      ensures View() == FRESH
      ensures limits.threshold > 0 ==> BreakerInv(View(), limits)
    {
      limits := Limits(if threshold == 0 then DEFAULT_THRESHOLD else threshold,
                       if recovery == 0.0 then DEFAULT_RECOVERY else recovery);
      phase, failures, lastFailure := CLOSED, 0, 0.0;
    }

    /** Rejects exactly while open and not yet `recovery` seconds past the last failure. */
    method AllowRequest(now: real) returns (allowed: bool)
      modifies this
      ensures (View(), allowed) == Allow(old(View()), limits, now)
      ensures !allowed <==> old(phase) == OPEN && now - old(lastFailure) < limits.recovery
      ensures old(BreakerInv(View(), limits)) ==> BreakerInv(View(), limits)
    {
      if phase == CLOSED {
        return true;
      }
      if phase == OPEN {
        if now - lastFailure >= limits.recovery {
          phase := HALF_OPEN;
          return true;
        }
        return false;
      }
      return true;
    }

    method Succeed()
      modifies this
      ensures View() == RecordSuccess(old(View()))
      ensures limits.threshold > 0 ==> BreakerInv(View(), limits)
    {
      failures := 0;
      phase := CLOSED;
    }

    method Fail(now: real)
      modifies this
      ensures View() == RecordFailure(old(View()), limits, now)
      ensures old(BreakerInv(View(), limits)) ==> BreakerInv(View(), limits)
    {
      failures := failures + 1;
      lastFailure := now;
      if failures >= limits.threshold {
        phase := OPEN;
      }
    }
  }

  // ---- Runs in which every admitted call is followed by one record ----

  /** A call asked for at `at`; if admitted it ends at `doneAt`, and its outcome is recorded then. */
  datatype Call = Call(at: real, doneAt: real, ok: bool)

  predicate Admitted(b: Breaker, l: Limits, c: Call) {
    Allow(b, l, c.at).1
  }

  function Record(b: Breaker, l: Limits, c: Call): Breaker {
    if c.ok then RecordSuccess(b) else RecordFailure(b, l, c.doneAt)
  }

  function AfterCall(b: Breaker, l: Limits, c: Call): Breaker {
    var (b', allowed) := Allow(b, l, c.at);
    if allowed then Record(b', l, c) else b'
  }

  /** The breaker before the k-th call of a run. */
  function Before(l: Limits, calls: seq<Call>, k: nat): Breaker
    requires k <= |calls|
  {
    if k == 0 then FRESH else AfterCall(Before(l, calls, k - 1), l, calls[k - 1])
  }

  predicate InTimeOrder(calls: seq<Call>) {
    && (forall i :: 0 <= i < |calls| ==> calls[i].at <= calls[i].doneAt)
    && (forall i, j :: 0 <= i < j < |calls| ==> calls[i].doneAt <= calls[j].at)
  }

  /** In every run: closed exactly while fewer than `threshold` failures are counted. */
  lemma {:induction false} BreakerInvHolds(l: Limits, calls: seq<Call>, k: nat)
    requires l.threshold > 0 && k <= |calls|
    ensures BreakerInv(Before(l, calls, k), l)
  {
    if k > 0 {
      BreakerInvHolds(l, calls, k - 1);
    }
  }

  /**
   After an admitted call fails in a breaker that is not closed, it stays open, and dated no earlier, until a success.
   */
  lemma {:induction false} StaysOpen(l: Limits, calls: seq<Call>, i: nat, k: nat)
    requires l.threshold > 0 && i < k <= |calls| && InTimeOrder(calls)
    requires Before(l, calls, i).phase != CLOSED && Admitted(Before(l, calls, i), l, calls[i])
    requires forall m :: i <= m < k && Admitted(Before(l, calls, m), l, calls[m]) ==> !calls[m].ok
    ensures Before(l, calls, k).phase == OPEN && Before(l, calls, k).lastFailure >= calls[i].doneAt
  {
    BreakerInvHolds(l, calls, k - 1);
    if k - 1 > i {
      StaysOpen(l, calls, i, k - 1);
    }
  }

  /** Two calls admitted after the breaker opened, with no success between, are at least `recovery` apart. */
  lemma {:induction false} ProbesAreSpaced(l: Limits, calls: seq<Call>, i: nat, j: nat)
    requires l.threshold > 0 && i < j < |calls| && InTimeOrder(calls)
    requires Before(l, calls, i).phase != CLOSED
    requires Admitted(Before(l, calls, i), l, calls[i]) && Admitted(Before(l, calls, j), l, calls[j])
    requires forall m :: i <= m < j && Admitted(Before(l, calls, m), l, calls[m]) ==> !calls[m].ok
    ensures calls[j].at - calls[i].doneAt >= l.recovery
    ensures calls[j].at - calls[i].at >= l.recovery
  {
    StaysOpen(l, calls, i, j);
  }

  /** How many requests are admitted, asked at each of the times in turn with nothing recorded between. */
  function AdmittedOf(b: Breaker, l: Limits, times: seq<real>): nat
    decreases |times|
  {
    if times == [] then 0
    else var (b', allowed) := Allow(b, l, times[0]); (if allowed then 1 else 0) + AdmittedOf(b', l, times[1..])
  }

  /** A breaker that is not open admits every request until one is recorded: HALF_OPEN by itself bounds nothing. */
  lemma {:induction false} HalfOpenAdmitsAnyNumber(b: Breaker, l: Limits, times: seq<real>)
    requires b.phase != OPEN
    ensures AdmittedOf(b, l, times) == |times|
    decreases |times|
  {
    if times != [] {
      HalfOpenAdmitsAnyNumber(b, l, times[1..]);
    }
  }

  /**
   HALF_OPEN is documented to let one probe through. Of the requests put to an open breaker, in time order and with
   nothing recorded between, at most one is admitted exactly when the last but one comes before recovery.
   */
  lemma {:induction false} OneProbeIff(b: Breaker, l: Limits, times: seq<real>)
    requires b.phase == OPEN && forall i, j :: 0 <= i < j < |times| ==> times[i] <= times[j]
    ensures AdmittedOf(b, l, times) <= 1 <==> (|times| < 2 || times[|times| - 2] - b.lastFailure < l.recovery)
    decreases |times|
  {
    if times != [] {
      var (b', allowed) := Allow(b, l, times[0]);
      if allowed {
        HalfOpenAdmitsAnyNumber(b', l, times[1..]);
      } else {
        OneProbeIff(b, l, times[1..]);
      }
    }
  }

  // ---- retry_with_backoff ----

  datatype Policy = Policy(attempts: int, baseDelay: real, maxDelay: real, multiplier: real)

  /** One run of the callable: it returns, raises one of the transient exceptions, or raises another one. */
  datatype Outcome<V> = Returns(v: V) | Transient | Fatal

  /** The k-th attempt: when the breaker is asked, when the callable ends, and how. */
  datatype Attempt<V> = Attempt(askedAt: real, doneAt: real, outcome: Outcome<V>)

  datatype Ending<V> = Returned(v: V) | Exhausted | Raised | BreakerOpen | NothingToRaise

  datatype Report<V> = Report(ending: Ending<V>, calls: nat, sleeps: seq<real>, breaker: Option<Breaker>)

  /** The delay after the next failure: the capped multiple of this one. */
  function NextDelay(p: Policy, delay: real): real {
    var longer := delay * p.multiplier;
    if longer < p.maxDelay then longer else p.maxDelay
  }

  function Ask(b: Option<Breaker>, l: Limits, now: real): (Option<Breaker>, bool) {
    match b
    case None => (None, true)
    case Some(x) => var (x', ok) := Allow(x, l, now); (Some(x'), ok)
  }

  function Note(b: Option<Breaker>, l: Limits, ok: bool, now: real): Option<Breaker> {
    match b
    case None => None
    case Some(x) => Some(if ok then RecordSuccess(x) else RecordFailure(x, l, now))
  }

  /** The loop of `retry_with_backoff` from attempt `k`, counted from 0, with the next delay. */
  function Retry<V>(p: Policy, l: Limits, b: Option<Breaker>, script: nat -> Attempt<V>, k: nat, delay: real): Report<V>
    decreases p.attempts - k
  {
    if k >= p.attempts then Report(NothingToRaise, 0, [], b)
    else
      var a := script(k);
      var (b1, allowed) := Ask(b, l, a.askedAt);
      if !allowed then Report(BreakerOpen, 0, [], b1)
      else match a.outcome
        case Returns(v) => Report(Returned(v), 1, [], Note(b1, l, true, a.doneAt))
        case Fatal => Report(Raised, 1, [], Note(b1, l, false, a.doneAt))
        case Transient =>
          var b2 := Note(b1, l, false, a.doneAt);
          if k + 1 < p.attempts then
            Preceded(1, [delay], Retry(p, l, b2, script, k + 1, NextDelay(p, delay)))
          else Report(Exhausted, 1, [], b2)
  }

  lemma {:induction false} RetryStep<V>(p: Policy, l: Limits, b: Option<Breaker>, script: nat -> Attempt<V>, k: nat,
                                        delay: real)
    requires k + 1 < p.attempts && Ask(b, l, script(k).askedAt).1 && script(k).outcome.Transient?
    ensures Retry(p, l, b, script, k, delay)
         == Preceded(1, [delay], Retry(p, l, Note(Ask(b, l, script(k).askedAt).0, l, false, script(k).doneAt), script,
                                       k + 1, NextDelay(p, delay)))
  {
  }

  function Preceded<V>(calls: nat, sleeps: seq<real>, rest: Report<V>): Report<V> {
    Report(rest.ending, calls + rest.calls, sleeps + rest.sleeps, rest.breaker)
  }

  function ViewOf(breaker: CircuitBreaker?): Option<Breaker>
    reads breaker
  {
    if breaker == null then None else Some(breaker.View())
  }

  function LimitsOf(breaker: CircuitBreaker?): Limits {
    if breaker == null then Limits(0, 0.0) else breaker.limits
  }

  method AskBreaker(breaker: CircuitBreaker?, now: real) returns (allowed: bool)
    modifies breaker
    ensures (ViewOf(breaker), allowed) == Ask(old(ViewOf(breaker)), LimitsOf(breaker), now)
  {
    allowed := true;
    if breaker != null {
      allowed := breaker.AllowRequest(now);
    }
  }

  method NoteBreaker(breaker: CircuitBreaker?, ok: bool, now: real)
    modifies breaker
    ensures ViewOf(breaker) == Note(old(ViewOf(breaker)), LimitsOf(breaker), ok, now)
  {
    if breaker != null {
      if ok {
        breaker.Succeed();
      } else {
        breaker.Fail(now);
      }
    }
  }

  /** `breaker` may be absent; `script` stands for the callable and the clock. */
  method RetryWithBackoff<V>(p: Policy, breaker: CircuitBreaker?, script: nat -> Attempt<V>)
    returns (ending: Ending<V>, calls: nat, sleeps: seq<real>)
    modifies breaker
    ensures Report(ending, calls, sleeps, ViewOf(breaker))
         == Retry(p, LimitsOf(breaker), old(ViewOf(breaker)), script, 0, p.baseDelay)
  {
    ghost var l, whole := LimitsOf(breaker), Retry(p, LimitsOf(breaker), ViewOf(breaker), script, 0, p.baseDelay);
    var delay, attempt := p.baseDelay, 0;
    calls, sleeps, ending := 0, [], NothingToRaise;
    while attempt < p.attempts
      invariant attempt < p.attempts ==>
                  whole == Preceded(calls, sleeps, Retry(p, l, ViewOf(breaker), script, attempt, delay))
      invariant attempt >= p.attempts ==> whole == Report(ending, calls, sleeps, ViewOf(breaker))
    {
      var a := script(attempt);
      ghost var b := ViewOf(breaker);
      var allowed := AskBreaker(breaker, a.askedAt);
      if !allowed {
        ending := BreakerOpen;
        return;
      }
      calls := calls + 1;
      NoteBreaker(breaker, a.outcome.Returns?, a.doneAt);
      if a.outcome.Returns? {
        ending := Returned(a.outcome.v);
        return;
      }
      if a.outcome.Fatal? {
        ending := Raised;
        return;
      }
      ending := Exhausted;
      attempt := attempt + 1;
      if attempt < p.attempts {
        RetryStep(p, l, b, script, attempt - 1, delay);
        assert forall rest: seq<real> :: sleeps + ([delay] + rest) == sleeps + [delay] + rest;
        sleeps := sleeps + [delay];
        delay := NextDelay(p, delay);
      }
    }
  }

  function Sum(s: seq<real>): real {
    if s == [] then 0.0 else s[0] + Sum(s[1..])
  }

  /** Sleeps that start with `delay`, each the capped multiple of the one before, and their total. */
  ghost predicate SleepsOk(p: Policy, delay: real, sleeps: seq<real>)
    requires sleeps != []
  {
    && sleeps[0] == delay
    && (forall i :: 1 <= i < |sleeps| ==> sleeps[i] == NextDelay(p, sleeps[i - 1]))
    && Sum(sleeps) <= delay + (|sleeps| - 1) as real * p.maxDelay
  }

  /**
   At most `attempts` calls, one sleep fewer than calls at most, and a bounded total sleep: the first sleep is the
   base delay, which is not capped, and every later one is at most the maximum delay.
   */
  lemma {:induction false} RetryIsBounded<V>(p: Policy, l: Limits, b: Option<Breaker>, script: nat -> Attempt<V>,
                                             k: nat, delay: real)
    requires p.maxDelay >= 0.0 && k < p.attempts
    ensures var r := Retry(p, l, b, script, k, delay);
            && r.calls <= p.attempts - k
            && |r.sleeps| <= p.attempts - k - 1 && |r.sleeps| <= r.calls <= |r.sleeps| + 1
            && (r.sleeps != [] ==> SleepsOk(p, delay, r.sleeps))
    decreases p.attempts - k
  {
    var next := NextDelay(p, delay);
    var a := script(k);
    var (b1, allowed) := Ask(b, l, a.askedAt);
    if allowed && a.outcome.Transient? && k + 1 < p.attempts {
      var b2 := Note(b1, l, false, a.doneAt);
      RetryStep(p, l, b, script, k, delay);
      RetryIsBounded(p, l, b2, script, k + 1, next);
      SleepsPreceded(p, delay, Retry(p, l, b2, script, k + 1, next).sleeps);
    }
  }

  lemma DelayGrows(p: Policy, delay: real)
    requires p.multiplier >= 1.0 && 0.0 <= delay <= p.maxDelay
    ensures delay <= NextDelay(p, delay) <= p.maxDelay
  {
    assert delay * (p.multiplier - 1.0) >= 0.0;
  }

  /** With a base delay within the cap and a multiplier of at least 1, sleeps never shrink and never pass the cap. */
  lemma {:induction false} SleepsNeverShrink<V>(p: Policy, l: Limits, b: Option<Breaker>, script: nat -> Attempt<V>,
                                                k: nat, delay: real)
    requires p.multiplier >= 1.0 && 0.0 <= delay <= p.maxDelay && k < p.attempts
    ensures var sleeps := Retry(p, l, b, script, k, delay).sleeps;
            && (forall i :: 0 <= i < |sleeps| ==> delay <= sleeps[i] <= p.maxDelay)
            && (forall i :: 1 <= i < |sleeps| ==> sleeps[i - 1] <= sleeps[i])
  {
    RetryIsBounded(p, l, b, script, k, delay);
    var sleeps := Retry(p, l, b, script, k, delay).sleeps;
    for n := 0 to |sleeps|
      invariant forall i :: 0 <= i < n ==> delay <= sleeps[i] <= p.maxDelay
      invariant forall i :: 1 <= i < n ==> sleeps[i - 1] <= sleeps[i]
    {
      if n > 0 {
        DelayGrows(p, sleeps[n - 1]);
        assert sleeps[n] == NextDelay(p, sleeps[n - 1]);
      }
    }
  }

  lemma {:induction false} SleepsPreceded(p: Policy, delay: real, rest: seq<real>)
    requires p.maxDelay >= 0.0
    requires rest != [] ==> rest[0] == NextDelay(p, delay) && SleepsOk(p, rest[0], rest)
    ensures SleepsOk(p, delay, [delay] + rest)
  {
    var s := [delay] + rest;
    TotalPreceded(p.maxDelay, delay, rest);
    forall i | 1 <= i < |s|
      ensures s[i] == NextDelay(p, s[i - 1])
    {
      assert s[i] == rest[i - 1] && (i > 1 ==> s[i - 1] == rest[i - 2]);
    }
  }

  lemma {:induction false} TotalPreceded(cap: real, delay: real, rest: seq<real>)
    requires cap >= 0.0
    requires rest != [] ==> rest[0] <= cap && Sum(rest) <= rest[0] + (|rest| - 1) as real * cap
    ensures Sum([delay] + rest) <= delay + |rest| as real * cap
  {
    assert ([delay] + rest)[1..] == rest;
    if rest != [] {
      assert |rest| as real * cap == cap + (|rest| - 1) as real * cap;
    }
  }

  // ---- How a retry ends, and how long it sleeps ----

  /**
   The ending that belongs to calls in the attempts from `k` to `end - 1`: the last decides, all before were transient.
   */
  ghost predicate EndsAs<V>(p: Policy, script: nat -> Attempt<V>, k: nat, end: nat, ending: Ending<V>)
    requires k <= end
  {
    && (forall i :: k <= i < end - 1 ==> script(i).outcome.Transient?)
    && match ending
       case Returned(v) => k < end && script(end - 1).outcome == Returns(v)
       case Raised => k < end && script(end - 1).outcome.Fatal?
       case Exhausted => k < end == p.attempts && script(end - 1).outcome.Transient?
       case BreakerOpen => end < p.attempts && (k < end ==> script(end - 1).outcome.Transient?)
       case NothingToRaise => k == end >= p.attempts
  }

  /**
   How a retry ends: it returns the value of a call that returns, raises with a call that raises another exception,
   gives up when every attempt raised a transient one, and stops before an attempt the breaker rejects.
   */
  lemma {:induction false} RetryEndsAs<V>(p: Policy, l: Limits, b: Option<Breaker>, script: nat -> Attempt<V>, k: nat,
                                          delay: real)
    ensures var r := Retry(p, l, b, script, k, delay); EndsAs(p, script, k, k + r.calls, r.ending)
    decreases p.attempts - k
  {
    var a := script(k);
    if k + 1 < p.attempts && Ask(b, l, a.askedAt).1 && a.outcome.Transient? {
      RetryEndsAs(p, l, Note(Ask(b, l, a.askedAt).0, l, false, a.doneAt), script, k + 1, NextDelay(p, delay));
      RetryStep(p, l, b, script, k, delay);
    }
  }

  /** Without a breaker the first attempt that is not transient decides: its value is returned, or its error raised. */
  lemma {:induction false} UnguardedRetryReturns<V>(p: Policy, l: Limits, script: nat -> Attempt<V>, k: nat, m: nat,
                                                    delay: real)
    requires k <= m < p.attempts && (forall i :: k <= i < m ==> script(i).outcome.Transient?)
    requires !script(m).outcome.Transient?
    ensures var r := Retry(p, l, None, script, k, delay);
            && r.calls == m - k + 1
            && (script(m).outcome.Returns? ==> r.ending == Returned(script(m).outcome.v))
            && (script(m).outcome.Fatal? ==> r.ending == Raised)
    decreases m - k
  {
    if k < m {
      UnguardedRetryReturns(p, l, script, k + 1, m, NextDelay(p, delay));
      RetryStep(p, l, None, script, k, delay);
    }
  }

  /** `x` multiplied `n` times by `factor`. */
  function Power(x: real, factor: real, n: nat): real {
    if n == 0 then x else Times(Power(x, factor, n - 1), factor)
  }

  /** The i-th sleep: the first is the base delay, later ones the base multiplied i times, up to the cap. */
  function ClosedSleep(p: Policy, delay: real, i: nat): real {
    if i == 0 || Power(delay, p.multiplier, i) <= p.maxDelay then Power(delay, p.multiplier, i) else p.maxDelay
  }

  lemma {:induction false} NextClosedSleep(p: Policy, delay: real, i: nat)
    requires p.multiplier >= 1.0 && p.maxDelay >= 0.0 && delay >= 0.0
    ensures ClosedSleep(p, delay, i + 1) == NextDelay(p, ClosedSleep(p, delay, i))
  {
    var exact, longer := Power(delay, p.multiplier, i), Power(delay, p.multiplier, i + 1);
    assert longer == Times(exact, p.multiplier);
    if i > 0 && exact > p.maxDelay {
      TimesIsMonotone(p.maxDelay, exact, p.multiplier);
      assert p.maxDelay * (p.multiplier - 1.0) >= 0.0;
    }
  }

  /** The sleeps of every retry are those, whatever the attempts come to. */
  lemma {:induction false} SleepsInClosedForm<V>(p: Policy, l: Limits, b: Option<Breaker>, script: nat -> Attempt<V>,
                                                 k: nat, delay: real)
    requires p.multiplier >= 1.0 && p.maxDelay >= 0.0 && delay >= 0.0 && k < p.attempts
    ensures var sleeps := Retry(p, l, b, script, k, delay).sleeps;
            forall i :: 0 <= i < |sleeps| ==> sleeps[i] == ClosedSleep(p, delay, i)
  {
    RetryIsBounded(p, l, b, script, k, delay);
    var sleeps := Retry(p, l, b, script, k, delay).sleeps;
    for n := 0 to |sleeps|
      invariant forall i :: 0 <= i < n ==> sleeps[i] == ClosedSleep(p, delay, i)
    {
      if n > 0 {
        NextClosedSleep(p, delay, n - 1);
        assert sleeps[n] == NextDelay(p, sleeps[n - 1]);
      }
    }
  }

  /** The breaker after the call of attempt `m`, when the loop from `k` gets that far. */
  function AfterAttempts<V>(l: Limits, b: Breaker, script: nat -> Attempt<V>, k: nat, m: nat): Breaker
    requires k <= m
    decreases m - k
  {
    var a := script(k);
    var b' := AfterCall(b, l, Call(a.askedAt, a.doneAt, a.outcome.Returns?));
    if m == k then b' else AfterAttempts(l, b', script, k + 1, m)
  }

  /** The i-th sleep of the policy, when the first is `delay`. */
  function DelayAt(p: Policy, delay: real, i: nat): real
    decreases i
  {
    if i == 0 then delay else DelayAt(p, NextDelay(p, delay), i - 1)
  }

  /**
   From attempt `k` on, the time from the end of one attempt to the next request exceeds the sleep between them by at
   most `slack`: a sleep may last longer than asked.
   */
  ghost predicate Paced<V>(p: Policy, script: nat -> Attempt<V>, k: nat, delay: real, slack: real) {
    forall i: nat :: k + i + 1 < p.attempts ==>
      script(k + i + 1).askedAt - script(k + i).doneAt <= DelayAt(p, delay, i) + slack
  }

  lemma PacedNext<V>(p: Policy, script: nat -> Attempt<V>, k: nat, delay: real, slack: real)
    requires Paced(p, script, k, delay, slack) && k + 1 < p.attempts
    ensures script(k + 1).askedAt - script(k).doneAt <= delay + slack
    ensures Paced(p, script, k + 1, NextDelay(p, delay), slack)
  {
    assert DelayAt(p, delay, 0) == delay && script(k + 0 + 1) == script(k + 1);
    forall i: nat | k + 1 + i + 1 < p.attempts
      ensures script(k + 1 + i + 1).askedAt - script(k + 1 + i).doneAt <= DelayAt(p, NextDelay(p, delay), i) + slack
    {
      assert DelayAt(p, delay, i + 1) == DelayAt(p, NextDelay(p, delay), i);
      assert script(k + (i + 1) + 1) == script(k + 1 + i + 1);
    }
  }

  /**
   After a failed attempt that leaves the breaker open, there is another call exactly when recovery has passed by the
   next request, however long the sleep between was asked to be.
   */
  lemma {:induction false} TrippedRetryCallsAgainIff<V>(p: Policy, l: Limits, b: Breaker, script: nat -> Attempt<V>,
                                                       k: nat, delay: real)
    requires k + 1 < p.attempts
    requires Allow(b, l, script(k).askedAt).1 && script(k).outcome.Transient?
    requires AfterAttempts(l, b, script, k, k).phase == OPEN
    ensures Retry(p, l, Some(b), script, k, delay).calls > 1 <==> script(k + 1).askedAt - script(k).doneAt >= l.recovery
  {
    RetryStep(p, l, Some(b), script, k, delay);
  }

  /**
   With the base delay and the maximum delay both shorter than recovery, by more than the time a sleep may overrun, no
   call is made after one that failed and left the breaker open.
   */
  lemma {:induction false} NoCallAfterTripping<V>(p: Policy, l: Limits, b: Breaker, script: nat -> Attempt<V>, k: nat,
                                                  delay: real, slack: real, m: nat)
    requires delay + slack < l.recovery && p.maxDelay + slack < l.recovery && Paced(p, script, k, delay, slack)
    requires k <= m && m + 1 < k + Retry(p, l, Some(b), script, k, delay).calls
    ensures AfterAttempts(l, b, script, k, m).phase != OPEN
    decreases m - k
  {
    var a := script(k);
    var b' := AfterCall(b, l, Call(a.askedAt, a.doneAt, a.outcome.Returns?));
    var next := NextDelay(p, delay);
    assert a.outcome.Transient? && k + 1 < p.attempts;
    RetryStep(p, l, Some(b), script, k, delay);
    PacedNext(p, script, k, delay, slack);
    if m > k {
      NoCallAfterTripping(p, l, b', script, k + 1, next, slack, m);
    } else if b'.phase == OPEN {
      TrippedRetryCallsAgainIff(p, l, b, script, k, delay);
    }
  }
}
