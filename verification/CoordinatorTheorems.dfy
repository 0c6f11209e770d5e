/**
 What every run of the pipeline keeps: cycles over symbols, interleaved with closes, resets and other Redis clients.
 */
module CoordinatorTheorems {
  import opened Wrappers
  import opened RedisStore
  import opened RunLocks
  import opened SlidingWindow
  import opened SignalFusion
  import opened RiskManagement
  import opened EmissionGate
  import opened LatencyWindow
  import opened Coordinator

  datatype Setup = Setup(risk: RiskConfig, adaptive: Config, me: Option<string>)

  /** One cycle, one operation on the risk manager from outside, or one change of the Redis store by another client. */
  datatype Event =
    | Round(symbols: seq<string>, batchSize: int, visit: nat -> Visit)
    | Outside(op: Op)
    | OtherClient(store: Store)

  function Happens(p: Pipeline, s: Setup, e: Event): Pipeline {
    match e
    case Round(symbols, batchSize, visit) => Cycle(p, s.risk, s.adaptive, s.me, symbols, batchSize, visit)
    case Outside(op) => p.(gate := Step(p.gate, s.risk, op))
    case OtherClient(store) => p.(store := store)
  }

  const IDLE := Pipeline(CLOSED_GATE, [], Store(map[], map[]), [])

  function AfterEvents(s: Setup, events: seq<Event>): Pipeline {
    if events == [] then IDLE else Happens(AfterEvents(s, events[..|events| - 1]), s, events[|events| - 1])
  }

  // ---- The gate sees one run per symbol whose lock was obtained ----

  predicate Handled(p: Pipeline, me: Option<string>, symbol: string, v: Visit) {
    me.None? || AcquireOutcome(p.store, v.acquireAt, me.value, symbol, v.links).acquired
  }

  /** The runs the k-th pass makes the gate do: one, or none if the lock was not obtained. */
  function OpOf(s: Setup, symbols: seq<string>, visit: nat -> Visit): (Pipeline, nat) -> seq<Op> {
    (p: Pipeline, k: nat) =>
      if k < |symbols| && Handled(p, s.me, symbols[k], visit(k)) then
        [Run(symbols[k], FusedFor(visit(k).sources), visit(k).moments)]
      else []
  }

  function OpsOfPasses(step: (Pipeline, nat) -> Pipeline, op: (Pipeline, nat) -> seq<Op>, p: Pipeline,
                       k: nat): seq<Op> {
    if k == 0 then [] else OpsOfPasses(step, op, p, k - 1) + op(Passes(step, p, k - 1), k - 1)
  }

  function OpsOfEvent(p: Pipeline, s: Setup, e: Event): seq<Op> {
    match e
    case Round(symbols, batchSize, visit) =>
      var advice := AdviceOf(p.samples, s.adaptive);
      if advice.skip || BatchOf(batchSize, advice) <= 0 then []
      else OpsOfPasses(StepOf(s.risk, s.me, symbols, visit), OpOf(s, symbols, visit), p.(outcomes := []), |symbols|)
    case Outside(op) => [op]
    case OtherClient(_) => []
  }

  function OpsOf(s: Setup, events: seq<Event>): seq<Op> {
    if events == [] then []
    else OpsOf(s, events[..|events| - 1]) + OpsOfEvent(AfterEvents(s, events[..|events| - 1]), s, events[|events| - 1])
  }

  lemma {:induction false} GateAfterSnoc(c: RiskConfig, ops: seq<Op>, op: Op)
    ensures GateAfter(c, ops + [op]) == Step(GateAfter(c, ops), c, op)
  {
    assert (ops + [op])[..|ops|] == ops;
  }

  predicate MovesGate(c: RiskConfig, p: Pipeline, q: Pipeline, ops: seq<Op>) {
    (q.gate == p.gate && ops == []) || (|ops| == 1 && q.gate == Step(p.gate, c, ops[0]))
  }

  lemma PassStepsTheGate(p: Pipeline, s: Setup, symbol: string, v: Visit)
    ensures Pass(p, s.risk, s.me, symbol, v).gate == if Handled(p, s.me, symbol, v) then
                                                       Step(p.gate, s.risk, Run(symbol, FusedFor(v.sources), v.moments))
                                                     else p.gate
  {
  }

  lemma PassMovesGate(p: Pipeline, s: Setup, symbols: seq<string>, visit: nat -> Visit, k: nat)
    ensures MovesGate(s.risk, p, StepOf(s.risk, s.me, symbols, visit)(p, k), OpOf(s, symbols, visit)(p, k))
  {
    if k < |symbols| {
      PassStepsTheGate(p, s, symbols[k], visit(k));
    }
  }

  lemma {:induction false} MoveExtendsRun(c: RiskConfig, p: Pipeline, q: Pipeline, ops: seq<Op>, more: seq<Op>)
    requires p.gate == GateAfter(c, ops) && MovesGate(c, p, q, more)
    ensures q.gate == GateAfter(c, ops + more)
  {
    if more == [] {
      assert ops + more == ops;
    } else {
      assert more == [more[0]];
      GateAfterSnoc(c, ops, more[0]);
    }
  }

  /** What every pass keeps of the pipeline and the runs so far holds after all passes. */
  lemma {:induction false} PassesKeepRuns(step: (Pipeline, nat) -> Pipeline, op: (Pipeline, nat) -> seq<Op>,
                                          inv: (Pipeline, seq<Op>) -> bool, p: Pipeline, k: nat, before: seq<Op>)
    requires forall q, j, ops :: inv(q, ops) ==> inv(step(q, j), ops + op(q, j))
    requires inv(p, before)
    ensures inv(Passes(step, p, k), before + OpsOfPasses(step, op, p, k))
  {
    if k == 0 {
      assert before + [] == before;
    } else {
      var q, ops := Passes(step, p, k - 1), OpsOfPasses(step, op, p, k - 1);
      PassesKeepRuns(step, op, inv, p, k - 1, before);
      assert inv(step(q, k - 1), before + ops + op(q, k - 1));
      assert before + (ops + op(q, k - 1)) == before + ops + op(q, k - 1);
    }
  }

  lemma {:induction false} CycleMovesGate(p: Pipeline, s: Setup, symbols: seq<string>, visit: nat -> Visit,
                                          before: seq<Op>)
    requires p.gate == GateAfter(s.risk, before)
    ensures var step, op := StepOf(s.risk, s.me, symbols, visit), OpOf(s, symbols, visit);
            Passes(step, p, |symbols|).gate == GateAfter(s.risk, before + OpsOfPasses(step, op, p, |symbols|))
  {
    var step, op := StepOf(s.risk, s.me, symbols, visit), OpOf(s, symbols, visit);
    var inv := (q: Pipeline, ops: seq<Op>) => q.gate == GateAfter(s.risk, ops);
    forall q, j, ops | inv(q, ops)
      ensures inv(step(q, j), ops + op(q, j))
    {
      PassMovesGate(q, s, symbols, visit, j);
      MoveExtendsRun(s.risk, q, step(q, j), ops, op(q, j));
    }
    PassesKeepRuns(step, op, inv, p, |symbols|, before);
  }

  lemma {:induction false} GateSeesTheOps(s: Setup, events: seq<Event>)
    ensures AfterEvents(s, events).gate == GateAfter(s.risk, OpsOf(s, events))
  {
    if events != [] {
      var init, e := events[..|events| - 1], events[|events| - 1];
      var p := AfterEvents(s, init);
      GateSeesTheOps(s, init);
      assert OpsOf(s, init) + [] == OpsOf(s, init);
      match e
      case Round(symbols, batchSize, visit) =>
        CycleMovesGate(p.(outcomes := []), s, symbols, visit, OpsOf(s, init));
      case Outside(op) =>
        GateAfterSnoc(s.risk, OpsOf(s, init), op);
      case OtherClient(_) =>
    }
  }

  /**
   The emission limits hold over every run of the whole pipeline, however the cycles, closes and resets interleave.
   */
  lemma {:induction false} PipelineKeepsEmissionLimits(s: Setup, events: seq<Event>, symbol: string, lo: real)
    requires EmissionGate.InTimeOrder(OpsOf(s, events))
    ensures var g := AfterEvents(s, events).gate;
            && Within(SentTimes(g.emissions, symbol), lo, lo + 3600.0)
               <= (if s.risk.maxPerSymbolPerHour > 0 then s.risk.maxPerSymbolPerHour else 0)
            && Spaced(g.emissions)
            && 0 <= g.risk.active <= (if s.risk.maxConcurrent > 0 then s.risk.maxConcurrent else 0)
  {
    GateSeesTheOps(s, events);
    EmissionLimits(s.risk, OpsOf(s, events), symbol, lo);
  }

  // ---- A pipeline that was told to skip never runs again ----

  predicate Slow(p: Pipeline, s: Setup) {
    AdviceOf(p.samples, s.adaptive).skip
  }

  lemma {:induction false} PassesKeep(step: (Pipeline, nat) -> Pipeline, inv: Pipeline -> bool, p: Pipeline, i: nat,
                                      k: nat)
    requires i <= k && forall q, j :: inv(q) && i <= j < k ==> inv(step(q, j))
    requires inv(Passes(step, p, i))
    ensures inv(Passes(step, p, k))
  {
    if i < k {
      PassesKeep(step, inv, p, i, k - 1);
    }
  }

  lemma SlowStaysIdle(p: Pipeline, s: Setup, e: Event)
    requires Slow(p, s)
    ensures var q := Happens(p, s, e);
            && Slow(q, s) && q.samples == p.samples
            && (!e.Outside? ==> q.gate == p.gate) && (e.Round? ==> q.outcomes == [])
  {
  }

  /**
   If the scheduler advises skipping after a cycle, no later cycle handles any symbol, so nothing is emitted again.
   */
  lemma {:induction false} OnceSlowNeverAgain(s: Setup, events: seq<Event>, more: seq<Event>)
    requires Slow(AfterEvents(s, events), s)
    ensures var before, after := AfterEvents(s, events), AfterEvents(s, events + more);
            && Slow(after, s) && after.samples == before.samples
            && ((forall e :: e in more ==> !e.Outside?) ==> after.gate == before.gate)
            && (more != [] && more[|more| - 1].Round? ==> after.outcomes == [])
  {
    if more == [] {
      assert events + more == events;
    } else {
      var init := more[..|more| - 1];
      assert (events + more)[..|events + more| - 1] == events + init;
      OnceSlowNeverAgain(s, events, init);
      SlowStaysIdle(AfterEvents(s, events + init), s, more[|more| - 1]);
      assert more[|more| - 1] in more && forall e :: e in init ==> e in more;
    }
  }

  /** The symbol is handled, and not lost to an exception: its latency is recorded. */
  predicate Timed(p: Pipeline, s: Setup, symbol: string, v: Visit) {
    && Handled(p, s.me, symbol, v)
    && Process(p.gate, s.risk, symbol, FusedFor(v.sources), v.moments).1 != Crashed
  }

  lemma TimedIsRecorded(p: Pipeline, s: Setup, symbol: string, v: Visit)
    requires Timed(p, s, symbol, v)
    ensures v.latency in Pass(p, s.risk, s.me, symbol, v).samples
  {
  }

  lemma PassKeepsSamples(p: Pipeline, s: Setup, symbol: string, v: Visit, x: real)
    requires x in p.samples
    ensures x in Pass(p, s.risk, s.me, symbol, v).samples
  {
  }

  lemma PassesKeepSamples(p: Pipeline, s: Setup, symbols: seq<string>, visit: nat -> Visit, from: nat, x: real)
    requires from <= |symbols| && x in Passes(StepOf(s.risk, s.me, symbols, visit), p, from).samples
    ensures x in Passes(StepOf(s.risk, s.me, symbols, visit), p, |symbols|).samples
  {
    var step := StepOf(s.risk, s.me, symbols, visit);
    forall q: Pipeline, i: nat | x in q.samples && from <= i < |symbols|
      ensures x in step(q, i).samples
    {
      PassKeepsSamples(q, s, symbols[i], visit(i), x);
    }
    PassesKeep(step, (q: Pipeline) => x in q.samples, p, from, |symbols|);
  }

  lemma TimedStaysRecorded(p: Pipeline, s: Setup, symbols: seq<string>, visit: nat -> Visit, j: nat)
    requires j < |symbols|
    requires Timed(Passes(StepOf(s.risk, s.me, symbols, visit), p, j), s, symbols[j], visit(j))
    ensures visit(j).latency in Passes(StepOf(s.risk, s.me, symbols, visit), p, |symbols|).samples
  {
    TimedIsRecorded(Passes(StepOf(s.risk, s.me, symbols, visit), p, j), s, symbols[j], visit(j));
    PassesKeepSamples(p, s, symbols, visit, j + 1, visit(j).latency);
  }

  lemma EventKeepsSamples(p: Pipeline, s: Setup, e: Event, x: real)
    requires x in p.samples
    ensures x in Happens(p, s, e).samples
  {
    if e.Round? {
      PassesKeepSamples(p.(outcomes := []), s, e.symbols, e.visit, 0, x);
    }
  }

  /** Once recorded, a latency stays among the samples over every further event. */
  lemma {:induction false} EventsKeepSamples(s: Setup, events: seq<Event>, mid: seq<Event>, x: real)
    requires x in AfterEvents(s, events).samples
    ensures x in AfterEvents(s, events + mid).samples
  {
    if mid == [] {
      assert events + mid == events;
    } else {
      var init := mid[..|mid| - 1];
      assert (events + mid)[..|events + mid| - 1] == events + init;
      EventsKeepSamples(s, events, init, x);
      EventKeepsSamples(AfterEvents(s, events + init), s, mid[|mid| - 1], x);
    }
  }

  /**
   With a latency window of 3 to 100 samples (the configured one is 10): once any latency over the p99 threshold has
   been recorded, the scheduler advises skipping as soon as there are three samples in all, however many events later.
   */
  lemma SlowSampleCatchesUp(s: Setup, events: seq<Event>, mid: seq<Event>, x: real)
    requires 3 <= s.adaptive.window <= 100
    requires x in AfterEvents(s, events).samples && x > s.adaptive.p99Threshold
    requires |AfterEvents(s, events + mid).samples| >= 3
    ensures Slow(AfterEvents(s, events + mid), s)
  {
    EventsKeepSamples(s, events, mid, x);
    OneSlowSampleIsEnough(AfterEvents(s, events + mid).samples, s.adaptive);
  }

  lemma TimedIsSampled(s: Setup, events: seq<Event>, e: Event, j: nat)
    requires e.Round? && j < |e.symbols|
    requires var p := AfterEvents(s, events);
             && !Slow(p, s) && BatchOf(e.batchSize, AdviceOf(p.samples, s.adaptive)) > 0
             && Timed(Passes(StepOf(s.risk, s.me, e.symbols, e.visit), p.(outcomes := []), j), s,
                      e.symbols[j], e.visit(j))
    ensures e.visit(j).latency in AfterEvents(s, events + [e]).samples
  {
    assert (events + [e])[..|events|] == events;
    TimedStaysRecorded(AfterEvents(s, events).(outcomes := []), s, e.symbols, e.visit, j);
  }

  /**
   So one symbol slower than the threshold, handled in any cycle that runs, stops the pipeline for good as soon as three
   symbols have been timed, in that cycle or in later ones: no later cycle handles any symbol.
   */
  lemma SlowSymbolStopsThePipeline(s: Setup, events: seq<Event>, e: Event, j: nat, mid: seq<Event>, more: seq<Event>)
    requires 3 <= s.adaptive.window <= 100 && e.Round? && j < |e.symbols|
    requires var p := AfterEvents(s, events);
             && !Slow(p, s) && BatchOf(e.batchSize, AdviceOf(p.samples, s.adaptive)) > 0
             && Timed(Passes(StepOf(s.risk, s.me, e.symbols, e.visit), p.(outcomes := []), j), s,
                      e.symbols[j], e.visit(j))
             && e.visit(j).latency > s.adaptive.p99Threshold
    requires |AfterEvents(s, events + [e] + mid).samples| >= 3
    ensures var before, after := AfterEvents(s, events + [e] + mid), AfterEvents(s, events + [e] + mid + more);
            && Slow(after, s) && after.samples == before.samples
            && ((forall x :: x in more ==> !x.Outside?) ==> after.gate == before.gate)
            && (more != [] && more[|more| - 1].Round? ==> after.outcomes == [])
  {
    TimedIsSampled(s, events, e, j);
    SlowSampleCatchesUp(s, events + [e], mid, e.visit(j).latency);
    OnceSlowNeverAgain(s, events + [e] + mid, more);
  }

  // ---- Locks ----

  predicate Punctual(v: Visit, now: real) {
    v.links == ALL_DELIVERED && v.releaseLink == Delivered && v.acquireAt <= v.releaseAt <= now
  }

  lemma PassLeavesNoLock(p: Pipeline, c: RiskConfig, me: string, symbol: string, v: Visit, key: string, now: real,
                         lock: Lock)
    requires Punctual(v, now)
    requires GetLock(Pass(p, c, Some(me), symbol, v).store, now, key) == Some(lock) && lock.owner == me
    ensures GetLock(p.store, now, key) == Some(lock)
  {
    var a := AcquireOutcome(p.store, v.acquireAt, me, symbol, v.links);
    if a.acquired && key != symbol {
      assert key in a.store.locks - {symbol} <==> key in p.store.locks - {symbol};
      assert (a.store.locks - {symbol})[key] == (p.store.locks - {symbol})[key];
    }
  }

  /**
   A cycle whose requests are all served leaves no live lock of its own behind: any it owns afterwards it owned before.
   */
  lemma CycleLeavesNoLock(p: Pipeline, c: RiskConfig, me: string, symbols: seq<string>, visit: nat -> Visit,
                          key: string, now: real,
                          lock: Lock)
    requires forall i: nat :: i < |symbols| ==> Punctual(visit(i), now)
    requires GetLock(Passes(StepOf(c, Some(me), symbols, visit), p, |symbols|).store, now, key) == Some(lock)
    requires lock.owner == me
    ensures GetLock(p.store, now, key) == Some(lock)
  {
    var step := StepOf(c, Some(me), symbols, visit);
    forall q: Pipeline, j: nat |
        GetLock(p.store, now, key) != Some(lock) && GetLock(q.store, now, key) != Some(lock) && j < |symbols|
      ensures GetLock(step(q, j).store, now, key) != Some(lock)
    {
      if GetLock(step(q, j).store, now, key) == Some(lock) {
        PassLeavesNoLock(q, c, me, symbols[j], visit(j), key, now, lock);
      }
    }
    if GetLock(p.store, now, key) != Some(lock) {
      PassesKeep(step, (q: Pipeline) => GetLock(q.store, now, key) != Some(lock), p, 0, |symbols|);
    }
  }
}
