/**
 The autonomous pipeline: from the sources of one symbol to its decision, and the loop over all symbols.
 What the sources answer, the clock and the fate of each Redis request are parameters.
 */
module Coordinator {
  import opened Builtins
  import opened Wrappers
  import opened RedisStore
  import opened RunLocks
  import opened SignalFusion
  import opened SignalSources
  import opened RiskManagement
  import opened DecisionModels
  import opened EmissionGate
  import opened LatencyWindow
  import FusionTheorems

  // ---- Step 1 and 2: sources, fusion, degradation ----

  /** `DEGRADATION_PENALTIES`: every entry but two is 0.05, and so is the default. */
  function PenaltyOf(missing: string): real {
    if missing == "strategies" then 0.20 else if missing == "market_context" then 0.10 else 0.05
  }

  function TotalPenalty(missing: seq<string>): real {
    if missing == [] then 0.0 else TotalPenalty(missing[..|missing| - 1]) + PenaltyOf(missing[|missing| - 1])
  }

  function VoteOf(source: string, opinion: Option<Opinion>): seq<Vote> {
    match opinion
    case Some(o) => [Vote(source, o.action, o.confidence)]
    case None => []
  }

  function VotesOf(s: Sources): seq<Vote> {
    VoteOf("strategy_consensus", s.strategy) + VoteOf("regime_detection", s.regime) + VoteOf("sentiment", s.sentiment)
    + VoteOf("prediction_market", s.prediction) + VoteOf("learning_engine", s.learning)
  }

  function Missing(name: string, opinion: Option<Opinion>): seq<string> {
    if opinion.None? then [name] else []
  }

  /** Only the first three sources are reported missing. */
  function MissingOf(s: Sources): seq<string> {
    Missing("strategies", s.strategy) + Missing("market_context", s.regime) + Missing("sentiment", s.sentiment)
  }

  function Degraded(confidence: real, missing: seq<string>): real {
    Max(0.30, confidence - TotalPenalty(missing))
  }

  /** The signal that reaches the risk check. */
  function FusedFor(s: Sources): FusedSignal {
    if VotesOf(s) == [] then FusedSignal(HOLD, Degraded(0.70, MissingOf(s)), 0.0)
    else
      var fused := Fuse(VotesOf(s), DEFAULT_SOURCE_WEIGHTS, WEIGHTED_MAJORITY);
      if MissingOf(s) == [] then fused else fused.(confidence := Degraded(fused.confidence, MissingOf(s)))
  }

  lemma MissingPenalty(before: seq<string>, name: string, opinion: Option<Opinion>)
    ensures TotalPenalty(before + Missing(name, opinion))
         == TotalPenalty(before) + if opinion.None? then PenaltyOf(name) else 0.0
  {
    if opinion.None? {
      assert (before + [name])[..|before|] == before;
    } else {
      assert before + [] == before;
    }
  }

  lemma PenaltyOfParts(s: Sources)
    ensures TotalPenalty(MissingOf(s)) == (if s.strategy.None? then PenaltyOf("strategies") else 0.0)
                                          + (if s.regime.None? then PenaltyOf("market_context") else 0.0)
                                          + (if s.sentiment.None? then PenaltyOf("sentiment") else 0.0)
  {
    var one := Missing("strategies", s.strategy);
    var two := one + Missing("market_context", s.regime);
    assert [] + one == one;
    MissingPenalty([], "strategies", s.strategy);
    MissingPenalty(one, "market_context", s.regime);
    MissingPenalty(two, "sentiment", s.sentiment);
  }

  /** Which sources cost what: 0.35 at most, and a missing prediction market or learning engine costs nothing. */
  lemma PenaltyIsBounded(s: Sources)
    ensures TotalPenalty(MissingOf(s)) == (if s.strategy.None? then 0.20 else 0.0)
                                          + (if s.regime.None? then 0.10 else 0.0)
                                          + (if s.sentiment.None? then 0.05 else 0.0)
  {
    PenaltyOfParts(s);
  }

  /** Degraded or not, the decision stays in the range the opportunity score is exact on. */
  lemma FusedForRange(s: Sources)
    ensures 0.30 <= FusedFor(s).confidence <= 0.95 && 0.0 <= FusedFor(s).agreement <= 1.0
    ensures var fused := Fuse(VotesOf(s), DEFAULT_SOURCE_WEIGHTS, WEIGHTED_MAJORITY);
            VotesOf(s) != [] ==> FusedFor(s).confidence <= fused.confidence
  {
    PenaltyIsBounded(s);
    FusionTheorems.FusedRange(VotesOf(s), DEFAULT_SOURCE_WEIGHTS, WEIGHTED_MAJORITY);
  }

  /** Without any source the answer is HOLD with a confidence of 0.35 and no agreement. */
  lemma SilenceMeansHold(s: Sources)
    ensures VotesOf(s) == [] <==> s == Sources(None, None, None, None, None)
    ensures s == Sources(None, None, None, None, None) ==> FusedFor(s) == FusedSignal(HOLD, 0.35, 0.0)
  {
    PenaltyIsBounded(s);
  }

  /**
   With any source the answer is that of the fusion, less sure by 0.20 without strategies, 0.10 without a market
   regime and 0.05 without sentiment, but never below 0.30.
   */
  lemma DegradationCosts(s: Sources)
    requires VotesOf(s) != []
    ensures var fused := Fuse(VotesOf(s), DEFAULT_SOURCE_WEIGHTS, WEIGHTED_MAJORITY);
            && FusedFor(s).action == fused.action && FusedFor(s).agreement == fused.agreement
            && FusedFor(s).confidence == Max(0.30, fused.confidence - (if s.strategy.None? then 0.20 else 0.0)
                                                                    - (if s.regime.None? then 0.10 else 0.0)
                                                                    - (if s.sentiment.None? then 0.05 else 0.0))
  {
    PenaltyIsBounded(s);
    FusionTheorems.FusedRange(VotesOf(s), DEFAULT_SOURCE_WEIGHTS, WEIGHTED_MAJORITY);
  }

  lemma DefaultWeightsArePositive(source: string)
    ensures WeightOf(DEFAULT_SOURCE_WEIGHTS, source) > 0.0
  {
  }

  predicate AllAtLeast(votes: seq<Vote>, confidence: real) {
    forall v :: v in votes ==> v.confidence >= confidence
  }

  lemma VoteKeepsAllAtLeast(votes: seq<Vote>, source: string, opinion: Option<Opinion>, confidence: real)
    requires AllAtLeast(votes, confidence) && AtLeast(opinion, confidence)
    ensures AllAtLeast(votes + VoteOf(source, opinion), confidence)
  {
  }

  lemma VotesOfAtLeast(s: Sources, confidence: real)
    requires AllConfident(s, confidence)
    ensures AllAtLeast(VotesOf(s), confidence)
  {
    var one := VoteOf("strategy_consensus", s.strategy);
    assert AllAtLeast(one, confidence);
    var two := one + VoteOf("regime_detection", s.regime);
    VoteKeepsAllAtLeast(one, "regime_detection", s.regime, confidence);
    var three := two + VoteOf("sentiment", s.sentiment);
    VoteKeepsAllAtLeast(two, "sentiment", s.sentiment, confidence);
    var four := three + VoteOf("prediction_market", s.prediction);
    VoteKeepsAllAtLeast(three, "prediction_market", s.prediction, confidence);
    VoteKeepsAllAtLeast(four, "learning_engine", s.learning, confidence);
  }

  lemma TieOfConfidentVotesGivesHold(votes: seq<Vote>)
    requires votes != [] && AllAtLeast(votes, 0.30)
    requires var t := TallyOf(votes, DEFAULT_SOURCE_WEIGHTS); ScoreOf(t, Top(t)) == RunnerUp(t)
    ensures Fuse(votes, DEFAULT_SOURCE_WEIGHTS, WEIGHTED_MAJORITY).action == HOLD
  {
    forall v | v in votes
      ensures WeightOf(DEFAULT_SOURCE_WEIGHTS, v.source) > 0.0
    {
      DefaultWeightsArePositive(v.source);
    }
    assert votes[0] in votes;
    FusionTheorems.TieGivesHoldIffAnyConfidence(votes, DEFAULT_SOURCE_WEIGHTS);
  }

  /** Whatever the five sources answer, a top tie gives HOLD in the pipeline: none of them has a confidence of 0. */
  lemma TieInPipelineGivesHold(r: Readings)
    requires var votes := VotesOf(SourcesOf(r));
             votes != [] && var t := TallyOf(votes, DEFAULT_SOURCE_WEIGHTS); ScoreOf(t, Top(t)) == RunnerUp(t)
    ensures FusedFor(SourcesOf(r)).action == HOLD
  {
    SourcesAreConfident(r);
    VotesOfAtLeast(SourcesOf(r), 0.30);
    TieOfConfidentVotesGivesHold(VotesOf(SourcesOf(r)));
  }

  // ---- One symbol and the loop, as a specification ----

  /** All that one pass over one symbol reads from outside. */
  datatype Visit = Visit(
    id: string,
    sources: Sources,
    market: Market,
    moments: Moments,
    latency: real,
    acquireAt: real,
    links: Links,
    releaseAt: real,
    releaseLink: Link)

  /** What the risk check answers in a pass over a symbol. */
  function CheckOf(r: Risk, c: RiskConfig, symbol: string, v: Visit): CheckResult {
    var fused := FusedFor(v.sources);
    Check(r, c, symbol, fused.action, fused.confidence, v.moments.check).1
  }

  datatype Outcome = Outcome(symbol: string, fused: FusedSignal, verdict: Verdict)

  datatype Pipeline = Pipeline(gate: Gate, samples: seq<real>, store: Store, outcomes: seq<Outcome>)

  /** `_process_symbol` */
  function Handle(p: Pipeline, c: RiskConfig, symbol: string, v: Visit): Pipeline {
    var fused := FusedFor(v.sources);
    var (gate, verdict) := Process(p.gate, c, symbol, fused, v.moments);
    if verdict == Crashed then p.(gate := gate)
    else p.(gate := gate,
            samples := p.samples + [v.latency],
            outcomes := p.outcomes + [Outcome(symbol, fused, verdict)])
  }

  /** One pass of the inner loop; `me` is `None` when there is no lock manager. */
  function Pass(p: Pipeline, c: RiskConfig, me: Option<string>, symbol: string, v: Visit): Pipeline {
    if me.None? then Handle(p, c, symbol, v)
    else
      var a := AcquireOutcome(p.store, v.acquireAt, me.value, symbol, v.links);
      if !a.acquired then p.(store := a.store)
      else
        var done := Handle(p.(store := a.store), c, symbol, v);
        done.(store := Released(done.store, v.releaseAt, symbol, me.value, v.releaseLink))
  }

  /** The k-th pass of a cycle over the symbols. */
  function StepOf(c: RiskConfig, me: Option<string>, symbols: seq<string>,
                  visit: nat -> Visit): (Pipeline, nat) -> Pipeline {
    (p: Pipeline, k: nat) => if k < |symbols| then Pass(p, c, me, symbols[k], visit(k)) else p
  }

  /** After the first `k` passes, one by one. */
  function Passes(step: (Pipeline, nat) -> Pipeline, p: Pipeline, k: nat): Pipeline {
    if k == 0 then p else step(Passes(step, p, k - 1), k - 1)
  }

  function AdviceOf(samples: seq<real>, adaptive: Config): Advice {
    GetState(Buffer(samples, adaptive.window), adaptive)
  }

  function BatchOf(requested: int, advice: Advice): int {
    if advice.batchSize < requested then advice.batchSize else requested
  }

  /** `process_all_symbols`, with its answers. Batches only group the passes: any positive size gives the same cycle. */
  function Cycle(p: Pipeline, c: RiskConfig, adaptive: Config, me: Option<string>, symbols: seq<string>, batchSize: int,
                 visit: nat -> Visit): Pipeline
  {
    var advice := AdviceOf(p.samples, adaptive);
    var start := p.(outcomes := []);
    if advice.skip || BatchOf(batchSize, advice) <= 0 then start
    else Passes(StepOf(c, me, symbols, visit), start, |symbols|)
  }

  // ---- The coordinator ----

  datatype CycleError = ValueError

  ghost predicate Records(d: AgentDecision, o: Outcome)
    reads d
  {
    && d.symbol == o.symbol && d.action == o.fused.action && d.confidence == o.fused.confidence
    && d.agreement == o.fused.agreement
    && (d.approved <==> o.verdict != Rejected)
    && (d.duplicate <==> o.verdict == Duplicate)
    && 17.5 <= d.score <= 98.75 && d.tier == TierOf(d.score)
    && d.score == Points(FactorsOf(d.action, d.confidence, d.agreement, d.market))
  }

  /** What one pass adds: nothing, or one outcome that the returned decision records. */
  ghost predicate Answers(r: Option<AgentDecision>, before: seq<Outcome>, after: seq<Outcome>)
    reads if r.Some? then {r.value} else {}
  {
    match r
    case None => after == before
    case Some(d) => |after| == |before| + 1 && after[..|before|] == before && Records(d, after[|before|])
  }

  ghost predicate AllRecorded(decisions: seq<AgentDecision>, outcomes: seq<Outcome>)
    reads decisions
  {
    |decisions| == |outcomes| && forall i :: 0 <= i < |decisions| ==> Records(decisions[i], outcomes[i])
  }

  lemma AnswerIsRecorded(before: seq<AgentDecision>, outcomes: seq<Outcome>, r: Option<AgentDecision>,
                         after: seq<Outcome>)
    requires AllRecorded(before, outcomes) && Answers(r, outcomes, after)
    ensures AllRecorded(if r.Some? then before + [r.value] else before, after)
  {
    if r.Some? {
      assert forall i :: 0 <= i < |outcomes| ==> after[i] == after[..|outcomes|][i];
    }
  }

  /** The market context and the position size a decision carries: the size the risk check answered. */
  ghost predicate Carries(d: AgentDecision, v: Visit, result: CheckResult) {
    d.market == v.market && result.Checked? && d.size == result.size
  }

  /** The entry price of a signal is stored when the signal is sent and the market context has one. */
  function PricesAfter(prices: map<string, real>, v: Visit, verdict: Verdict): map<string, real> {
    if verdict == Sent && v.market.price.Some? then prices[v.id := v.market.price.value] else prices
  }

  const LOG_LIMIT := 1000
  const LOG_KEPT := 500

  class SignalCoordinator {
    const riskManager: RiskManager
    const adaptive: AdaptiveScheduler
    const lockManager: LockManager
    const locking: bool    // whether a Redis client was given; without one the lock manager is never called
    var recentEmissions: map<(string, Action), real>
    var entryPrices: map<string, real>
    var decisions: seq<AgentDecision>
    ghost var emissions: seq<Emission>    // every signal ever sent
    ghost var log: seq<AgentDecision>     // every decision ever made

    ghost predicate Valid()
      reads this, adaptive
    {
      adaptive.Valid() && lockManager.Valid() && LogValid()
    }

    /** The kept decisions are the newest ones: all of them, or at least 500. */
    ghost predicate LogValid()
      reads this`decisions, this`log
    {
      && |decisions| <= 1000 && |decisions| <= |log| && decisions == log[|log| - |decisions|..]
      && (|decisions| == |log| || |decisions| >= 500)
    }

    ghost function GateView(): Gate
      reads this, riskManager
    {
      Gate(riskManager.View(), recentEmissions, emissions)
    }

    ghost function Me(): Option<string> {
      if locking then Some(lockManager.instanceId) else None
    }

    ghost function View(outcomes: seq<Outcome>): Pipeline
      reads this, riskManager, adaptive, lockManager.redis
    {
      Pipeline(GateView(), adaptive.samples, lockManager.redis.store, outcomes)
    }

    constructor (risk: RiskConfig, adaptive: Config, lockManager: LockManager, locking: bool)
      requires lockManager.Valid()
      ensures Valid() && GateView() == CLOSED_GATE && this.adaptive.samples == [] && log == []
      ensures riskManager.config == risk && this.adaptive.config == adaptive
      ensures this.lockManager == lockManager && this.locking == locking
      ensures fresh(riskManager) && fresh(this.adaptive)
    {
      riskManager := new RiskManager(risk);
      this.adaptive := new AdaptiveScheduler(adaptive);
      this.lockManager, this.locking := lockManager, locking;
      recentEmissions, entryPrices, decisions, emissions, log := map[], map[], [], [], [];
    }

    method Hear(source: string, opinion: Option<Opinion>) returns (heard: seq<SourceSignal>)
      ensures fresh(heard) && Votes(heard) == VoteOf(source, opinion)
    {
      heard := [];
      if opinion.Some? {
        var s := new SourceSignal(source, opinion.value.action, opinion.value.confidence);
        heard := [s];
      }
    }

    method GatherSignals(s: Sources) returns (signals: seq<SourceSignal>, missing: seq<string>)
      ensures Votes(signals) == VotesOf(s) && missing == MissingOf(s) && fresh(signals)
    {
      var strategy := Hear("strategy_consensus", s.strategy);
      var regime := Hear("regime_detection", s.regime);
      var sentiment := Hear("sentiment", s.sentiment);
      var prediction := Hear("prediction_market", s.prediction);
      var learning := Hear("learning_engine", s.learning);
      signals := strategy + regime + sentiment + prediction + learning;
      missing := Missing("strategies", s.strategy) + Missing("market_context", s.regime)
                 + Missing("sentiment", s.sentiment);
    }

    method FuseSources(s: Sources) returns (fused: FusedSignal)
      ensures fused == FusedFor(s)
    {
      var signals, missing := GatherSignals(s);
      if signals == [] {
        return FusedSignal(HOLD, Degraded(0.70, missing), 0.0);
      }
      fused := FuseSignals(signals, None, WEIGHTED_MAJORITY);
      if missing != [] {
        fused := fused.(confidence := Degraded(fused.confidence, missing));
      }
    }

    /** Keeps the newest decisions; the log is cut back to 500 once it passes 1000. */
    method AppendDecision(d: AgentDecision)
      requires LogValid()
      modifies this`decisions, this`log
      ensures LogValid() && log == old(log) + [d]
    {
      decisions, log := decisions + [d], log + [d];
      if |decisions| > LOG_LIMIT {
        decisions := Slice(decisions, -LOG_KEPT, |decisions|);
      }
    }

    /** Exact for every limit up to 500. */
    method GetRecentDecisions(limit: int) returns (recent: seq<AgentDecision>)
      requires LogValid()
      ensures 0 < limit <= 500 ==> recent == Slice(log, -limit, |log|)
    {
      recent := Slice(decisions, -limit, |decisions|);
    }

    method EmitOrSkip(d: AgentDecision, id: string, m: Moments) returns (sent: bool)
      requires d.action != HOLD && !d.duplicate
      modifies this`recentEmissions, this`entryPrices, this`emissions, riskManager, d`duplicate
      ensures sent == !d.duplicate == (m.dedup - LastEmit(old(recentEmissions), d.symbol, d.action) >= 900.0)
      ensures GateView() == if sent then
                              Gate(Emitted(old(riskManager.View()), d.symbol, m.record),
                                   old(recentEmissions)[(d.symbol, d.action) := m.stamp],
                                   old(emissions) + [Emission(d.symbol, d.action, m.emit, m.record)])
                            else old(GateView())
      ensures entryPrices == if sent && d.market.price.Some? then old(entryPrices)[id := d.market.price.value]
                             else old(entryPrices)
    {
      var lastEmit := LastEmit(recentEmissions, d.symbol, d.action);
      if m.dedup - lastEmit < DEDUP_WINDOW {
        d.duplicate := true;
        return false;
      }
      emissions := emissions + [Emission(d.symbol, d.action, m.emit, m.record)];
      recentEmissions := recentEmissions[(d.symbol, d.action) := m.stamp];
      if d.market.price.Some? {
        entryPrices := entryPrices[id := d.market.price.value];
      }
      riskManager.RecordSignalEmitted(d.symbol, m.record);
      return true;
    }

    method BuildDecision(symbol: string, fused: FusedSignal, market: Market, approved: bool, size: real)
      returns (d: AgentDecision)
      requires 0.30 <= fused.confidence <= 0.95 && 0.0 <= fused.agreement <= 1.0
      ensures fresh(d) && d.market == market && d.size == size && !d.duplicate
      ensures Records(d, Outcome(symbol, fused, if approved then Held else Rejected))
    {
      d := new AgentDecision(symbol, fused, market, approved, size);
      var score := d.ComputeOpportunityScore();
    }

    /** Steps 4 and 5: the decision, and its emission if it is approved and not a duplicate. */
    method Conclude(symbol: string, fused: FusedSignal, result: CheckResult, v: Visit) returns (d: AgentDecision)
      requires 0.30 <= fused.confidence <= 0.95 && 0.0 <= fused.agreement <= 1.0 && result.Checked?
      modifies this`recentEmissions, this`entryPrices, this`emissions, riskManager
      ensures fresh(d)
      ensures var (gate, verdict) := Settle(old(GateView()), result, symbol, fused.action, v.moments);
              && GateView() == gate
              && Records(d, Outcome(symbol, fused, verdict)) && Carries(d, v, result)
              && entryPrices == PricesAfter(old(entryPrices), v, verdict)
    {
      d := BuildDecision(symbol, fused, v.market, result.approved, result.size);
      if result.approved && fused.action != HOLD {
        var sent := EmitOrSkip(d, v.id, v.moments);
      }
    }

    method NoteLatency(latency: real)
      requires adaptive.Valid()
      modifies adaptive
      ensures adaptive.Valid() && adaptive.samples == old(adaptive.samples) + [latency]
    {
      adaptive.RecordLatency(latency);
    }

    /** Steps 3 to 5. */
    method Decide(symbol: string, fused: FusedSignal, v: Visit) returns (r: Option<AgentDecision>)
      requires adaptive.Valid() && 0.30 <= fused.confidence <= 0.95 && 0.0 <= fused.agreement <= 1.0
      modifies this`recentEmissions, this`entryPrices, this`emissions, riskManager, adaptive
      ensures adaptive.Valid()
      ensures var (gate, verdict) := Process(old(GateView()), riskManager.config, symbol, fused, v.moments);
              && GateView() == gate
              && (r.None? <==> verdict == Crashed)
              && (r.Some? ==> fresh(r.value) && Records(r.value, Outcome(symbol, fused, verdict)))
              && (r.Some? ==> Carries(r.value, v, Check(old(riskManager.View()), riskManager.config, symbol,
                                                        fused.action, fused.confidence, v.moments.check).1))
              && adaptive.samples == old(adaptive.samples) + (if verdict == Crashed then [] else [v.latency])
              && entryPrices == PricesAfter(old(entryPrices), v, verdict)
    {
      var result := riskManager.CheckSignal(symbol, fused.action, fused.confidence, v.moments.check);
      if result.DividedByZero? {
        assert adaptive.samples == old(adaptive.samples) + [];
        return None;
      }
      NoteLatency(v.latency);
      var d := Conclude(symbol, fused, result, v);
      return Some(d);
    }

    /** Steps 1 to 5. */
    method FuseAndDecide(symbol: string, v: Visit, ghost before: seq<Outcome>) returns (r: Option<AgentDecision>)
      requires adaptive.Valid()
      modifies this`recentEmissions, this`entryPrices, this`emissions, riskManager, adaptive
      ensures adaptive.Valid()
      ensures r.Some? ==> Carries(r.value, v, CheckOf(old(riskManager.View()), riskManager.config, symbol, v))
      ensures var p := Handle(old(View(before)), riskManager.config, symbol, v);
              && View(p.outcomes) == p
              && Answers(r, before, p.outcomes) && (r.Some? ==> fresh(r.value))
              && entryPrices == (if r.None? then old(entryPrices)
                                 else PricesAfter(old(entryPrices), v, p.outcomes[|before|].verdict))
    {
      var fused := FuseSources(v.sources);
      assert 0.30 <= fused.confidence <= 0.95 && 0.0 <= fused.agreement <= 1.0 by {
        FusedForRange(v.sources);
      }
      r := Decide(symbol, fused, v);
    }

    method ProcessSymbol(symbol: string, v: Visit, ghost before: seq<Outcome>) returns (r: Option<AgentDecision>)
      requires Valid()
      modifies this, riskManager, adaptive
      ensures Valid()
      ensures r.Some? ==> Carries(r.value, v, CheckOf(old(riskManager.View()), riskManager.config, symbol, v))
      ensures var p := Handle(old(View(before)), riskManager.config, symbol, v);
              && View(p.outcomes) == p
              && Answers(r, before, p.outcomes) && (r.Some? ==> fresh(r.value))
              && log == old(log) + (if r.Some? then [r.value] else [])
              && entryPrices == (if r.None? then old(entryPrices)
                                 else PricesAfter(old(entryPrices), v, p.outcomes[|before|].verdict))
    {
      r := FuseAndDecide(symbol, v, before);
      if r.Some? {
        AppendDecision(r.value);
      }
    }

    /** One pass of the inner loop: a symbol whose lock is not obtained is skipped, and an obtained lock is released. */
    method TrySymbol(symbol: string, v: Visit, ghost before: seq<Outcome>) returns (r: Option<AgentDecision>)
      requires Valid()
      modifies this, riskManager, adaptive, lockManager.redis, lockManager.recovery
      ensures Valid()
      ensures var p := Pass(old(View(before)), riskManager.config, Me(), symbol, v);
              && View(p.outcomes) == p
              && Answers(r, before, p.outcomes) && (r.Some? ==> fresh(r.value))
    {
      if locking {
        lockManager.redis.now := v.acquireAt;
        var acquired := lockManager.Acquire(symbol, v.links);
        if !acquired {
          return None;
        }
      }
      r := ProcessSymbol(symbol, v, before);
      if locking {
        lockManager.redis.now := v.releaseAt;
        var released := lockManager.Release(symbol, v.releaseLink);
      }
    }

    /** Nothing runs if the scheduler says skip; a batch size of 0 is an error, a negative one an empty cycle. */
    method ProcessAllSymbols(symbols: seq<string>, batchSize: int, visit: nat -> Visit)
      returns (r: Result<seq<AgentDecision>, CycleError>)
      requires Valid()
      modifies this, riskManager, adaptive, lockManager.redis, lockManager.recovery
      ensures Valid()
      ensures var q := Cycle(old(View([])), riskManager.config, adaptive.config, Me(), symbols, batchSize, visit);
              && View(q.outcomes) == q
              && (r.Success? ==> AllRecorded(r.value, q.outcomes))
      ensures var advice := AdviceOf(old(adaptive.samples), adaptive.config);
              r.Failure? <==> !advice.skip && BatchOf(batchSize, advice) == 0
    {
      var advice := adaptive.CurrentState();
      if advice.skip {
        return Success([]);
      }
      var batch := BatchOf(batchSize, advice);
      if batch == 0 {
        return Failure(ValueError);
      }
      if batch < 0 {
        return Success([]);
      }
      var all := ProcessInBatches(symbols, batch, visit);
      return Success(all);
    }

    method AddAnswer(before: seq<AgentDecision>, ghost outcomes: seq<Outcome>, symbol: string, v: Visit)
      returns (all: seq<AgentDecision>, ghost after: seq<Outcome>)
      requires Valid() && AllRecorded(before, outcomes)
      modifies this, riskManager, adaptive, lockManager.redis, lockManager.recovery
      ensures Valid() && AllRecorded(all, after)
      ensures View(after) == Pass(old(View(outcomes)), riskManager.config, Me(), symbol, v)
    {
      after := Pass(View(outcomes), riskManager.config, Me(), symbol, v).outcomes;
      var result := TrySymbol(symbol, v, outcomes);
      assert AllRecorded(before, outcomes);
      AnswerIsRecorded(before, outcomes, result, after);
      all := if result.Some? then before + [result.value] else before;
    }

    /** The inner loop: the symbols of one batch, in order. */
    method ProcessBatch(ghost step: (Pipeline, nat) -> Pipeline, ghost start: Pipeline, symbols: seq<string>,
                        from: int, end: int, visit: nat -> Visit,
                        before: seq<AgentDecision>, ghost outcomes: seq<Outcome>)
      returns (all: seq<AgentDecision>, ghost after: seq<Outcome>)
      requires Valid() && AllRecorded(before, outcomes) && 0 <= from <= end <= |symbols|
      requires forall q: Pipeline, k: nat {:trigger Pass(q, riskManager.config, Me(), symbols[k], visit(k))} ::
                 k < |symbols| ==>
                 step(q, k) == Pass(q, riskManager.config, Me(), symbols[k], visit(k))
      requires View(outcomes) == Passes(step, start, from)
      modifies this, riskManager, adaptive, lockManager.redis, lockManager.recovery
      ensures Valid() && AllRecorded(all, after)
      ensures View(after) == Passes(step, start, end)
    {
      all, after := before, outcomes;
      var j := from;
      while j < end
        invariant from <= j <= end && Valid() && AllRecorded(all, after)
        invariant View(after) == Passes(step, start, j)
      {
        all, after := AddAnswer(all, after, symbols[j], visit(j));
        j := j + 1;
      }
    }

    method ProcessInBatches(symbols: seq<string>, batch: int, visit: nat -> Visit) returns (all: seq<AgentDecision>)
      requires Valid() && batch > 0
      modifies this, riskManager, adaptive, lockManager.redis, lockManager.recovery
      ensures Valid()
      ensures var q := Passes(StepOf(riskManager.config, Me(), symbols, visit), old(View([])), |symbols|);
              View(q.outcomes) == q && AllRecorded(all, q.outcomes)
    {
      ghost var start, step := View([]), StepOf(riskManager.config, Me(), symbols, visit);
      ghost var outcomes: seq<Outcome> := [];
      all := [];
      var i := 0;
      while i < |symbols|
        invariant 0 <= i <= |symbols| && Valid() && AllRecorded(all, outcomes)
        invariant View(outcomes) == Passes(step, start, i)
      {
        var end := if i + batch < |symbols| then i + batch else |symbols|;
        all, outcomes := ProcessBatch(step, start, symbols, i, end, visit, all, outcomes);
        i := end;
      }
    }
  }
}
