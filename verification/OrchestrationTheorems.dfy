/** What every run of orchestration cycles keeps. */
module OrchestrationTheorems {
  import opened Wrappers
  import opened Resilience
  import opened OrchestrationState
  import opened Promotion
  import opened Monitoring
  import opened OrchestrationLoop
  import V = Validation

  // ---- The ledger of promotions and retirements ----

  function CountOf(entries: seq<Entry>, name: string): nat {
    if entries == [] then 0
    else CountOf(entries[..|entries| - 1], name) + if entries[|entries| - 1].name == name then 1 else 0
  }

  lemma CountSnoc(entries: seq<Entry>, e: Entry, name: string)
    ensures CountOf(entries + [e], name) == CountOf(entries, name) + if e.name == name then 1 else 0
  {
    assert (entries + [e])[..|entries|] == entries;
  }

  /** Promotions minus retirements, beyond the 1 that a live strategy accounts for. */
  function Excess(s: State, name: string): int {
    CountOf(s.promotions, name) - CountOf(s.retirements, name) - if Promoted(s, name) then 1 else 0
  }

  ghost predicate AllocationInRange(s: State, name: string) {
    Promoted(s, name) ==> 0.01 <= s.table[name].allocation <= 0.25
  }

  // ---- One name through one cycle ----

  lemma {:induction false} AddAllFacts(s: State, names: seq<string>, k: nat, name: string)
    requires k <= |names|
    ensures var t := AddAll(s, names, k);
            && t.promotions == s.promotions && t.retirements == s.retirements && t.cycle == s.cycle
            && (Promoted(t, name) <==> Promoted(s, name) && name !in names[..k])
            && (Promoted(t, name) ==> t.table[name] == s.table[name])
            && (name in t.table <==> name in s.table || name in names[..k])
  {
    if k > 0 {
      AddAllFacts(s, names, k - 1, name);
      assert names[..k] == names[..k - 1] + [names[k - 1]];
    }
  }

  lemma {:induction false} AdvanceAllFacts(s: State, vs: seq<V.Validated>, k: nat, name: string)
    requires k <= |vs| && (Promoted(s, name) ==> forall v :: v in vs ==> v.name != name)
    ensures var t := AdvanceAll(s, vs, k);
            && t.promotions == s.promotions && t.retirements == s.retirements && t.cycle == s.cycle
            && (Promoted(t, name) <==> Promoted(s, name))
            && (Promoted(s, name) ==> t.table[name] == s.table[name])
            && (name in t.table <==> name in s.table)
  {
    if k > 0 {
      AdvanceAllFacts(s, vs, k - 1, name);
      assert vs[k - 1] in vs;
    }
  }

  lemma {:induction false} PromoteOneKeeps(s: State, v: V.Validated, name: string)
    ensures Excess(PromoteOne(s, v), name) == Excess(s, name)
    ensures AllocationInRange(s, name) ==> AllocationInRange(PromoteOne(s, v), name)
  {
    CountSnoc(s.promotions, Entry(v.name, s.cycle), name);
  }

  lemma {:induction false} PromoteFirstKeeps(s: State, vs: seq<V.Validated>, k: nat, name: string)
    requires k <= |vs|
    ensures Excess(PromoteFirst(s, vs, k), name) == Excess(s, name)
    ensures AllocationInRange(s, name) ==> AllocationInRange(PromoteFirst(s, vs, k), name)
    ensures |PromoteFirst(s, vs, k).promotions| <= |s.promotions| + k
  {
    if k > 0 {
      PromoteFirstKeeps(s, vs, k - 1, name);
      PromoteOneKeeps(PromoteFirst(s, vs, k - 1), vs[k - 1], name);
    }
  }

  lemma {:induction false} MonitorOneKeeps(r: Progress, monitored: string, live: Live, name: string)
    requires Promoted(r.state, monitored) || monitored !in r.state.table
    ensures Excess(MonitorOne(r, monitored, live).state, name) == Excess(r.state, name)
    ensures AllocationInRange(r.state, name) ==> AllocationInRange(MonitorOne(r, monitored, live).state, name)
    ensures MonitorOne(r, monitored, live).state.promotions == r.state.promotions
  {
    CountSnoc(r.state.retirements, Entry(monitored, r.state.cycle), name);
  }

  lemma {:induction false} MonitorKeeps(s: State, names: seq<string>, live: string -> Live, k: nat, name: string)
    requires k <= |names| && ListsPromoted(names, s)
    ensures Excess(Monitor(s, names, live, k).state, name) == Excess(s, name)
    ensures AllocationInRange(s, name) ==> AllocationInRange(Monitor(s, names, live, k).state, name)
    ensures Monitor(s, names, live, k).state.promotions == s.promotions
  {
    if k > 0 {
      MonitorKeeps(s, names, live, k - 1, name);
      assert names[k - 1] in names;
      assert names[k - 1] !in names[..k - 1];
      NotYetMonitored(s, names, live, k - 1, names[k - 1]);
      MonitorOneKeeps(Monitor(s, names, live, k - 1), names[k - 1], live(names[k - 1]), name);
    }
  }

  // ---- One cycle ----

  lemma {:induction false} ValidatedWasDiscovered(g: Guards, i: Inputs, v: V.Validated) returns (k: nat)
    requires v in ValidatedBy(g, i)
    ensures V.Earned(v, i.backtest, Discovered(g.strategy, i), V.BACKTEST_SYMBOLS, k)
    ensures v.name in Discovered(g.strategy, i) && V.Descending(ValidatedBy(g, i))
  {
    k := V.ValidatedEarnedIt(i.backtest, Discovered(g.strategy, i), V.BACKTEST_SYMBOLS, v);
  }

  /** Discovery takes every name it returns out of the promotion phase; nothing else changes what is live. */
  lemma {:induction false} BeforePromotionFacts(s: State, g: Guards, i: Inputs, name: string)
    ensures var t := BeforePromotion(s, g, i);
            && t.promotions == s.promotions && t.retirements == s.retirements && t.cycle == s.cycle + 1
            && (Promoted(t, name) <==> Promoted(s, name) && name !in AddedNames(g.strategy, i))
            && (Promoted(t, name) ==> t.table[name] == s.table[name])
            && (name in AddedNames(g.strategy, i) ==> name in t.table)
  {
    var added, validated := AddedNames(g.strategy, i), ValidatedBy(g, i);
    var s0 := s.(cycle := s.cycle + 1);
    assert Promoted(s0, name) <==> Promoted(s, name);
    AddAllFacts(s0, added, |added|, name);
    assert added[..|added|] == added;
    forall v | v in validated
      ensures v.name in added
    {
      var k := ValidatedWasDiscovered(g, i, v);
    }
    AdvanceAllFacts(AddAll(s0, added, |added|), validated, |validated|, name);
  }

  /** A live strategy whose name is discovered again: its record is overwritten and no retirement is written. */
  predicate Rediscovered(s: State, g: Guards, i: Inputs, name: string) {
    Promoted(s, name) && name in AddedNames(g.strategy, i)
  }

  /**
   The ledger of a cycle, whatever is discovered: promotions minus retirements stays level with what is live, except
   that each rediscovery of a live strategy leaves one promotion unaccounted for. At most two strategies are promoted,
   and live allocations stay in range.
   */
  lemma {:induction false} CycleLedger(s: State, g: Guards, i: Inputs, names: seq<string>, name: string)
    requires ListsPromoted(names, BeforeMonitoring(s, g, i))
    ensures Excess(Cycle(s, g, i, names), name) == Excess(s, name) + if Rediscovered(s, g, i, name) then 1 else 0
    ensures AllocationInRange(s, name) ==> AllocationInRange(Cycle(s, g, i, names), name)
    ensures |Cycle(s, g, i, names).promotions| <= |s.promotions| + 2
  {
    BeforePromotionFacts(s, g, i, name);
    PromoteFirstKeeps(BeforePromotion(s, g, i), ValidatedBy(g, i), Tried(ValidatedBy(g, i)), name);
    MonitorKeeps(BeforeMonitoring(s, g, i), names, i.live, |names|, name);
  }

  /**
   A strategy that goes live in a cycle met all four thresholds on every configured symbol, as did its aggregate, and no
   validated candidate left behind has a higher Sharpe ratio.
   */
  lemma {:induction false} PromotedEarnedIt(s: State, g: Guards, i: Inputs, name: string) returns (v: V.Validated,
                                            k: nat)
    requires !Promoted(BeforePromotion(s, g, i), name) && Promoted(BeforeMonitoring(s, g, i), name)
    ensures v.name == name && v in ValidatedBy(g, i)
    ensures V.Earned(v, i.backtest, Discovered(g.strategy, i), V.BACKTEST_SYMBOLS, k)
    ensures forall u :: u in ValidatedBy(g, i) && !Promoted(BeforeMonitoring(s, g, i), u.name) ==>
              u.metrics.sharpe <= v.metrics.sharpe
  {
    var vs, t := ValidatedBy(g, i), BeforePromotion(s, g, i);
    forall u | u in vs
      ensures u.name in t.table
    {
      var n := ValidatedWasDiscovered(g, i, u);
      BeforePromotionFacts(s, g, i, u.name);
    }
    PromotesExactlyTheFirst(t, vs, Tried(vs), name);
    var j :| 0 <= j < Tried(vs) && vs[j].name == name;
    v := vs[j];
    k := ValidatedWasDiscovered(g, i, v);
    forall u | u in vs && !Promoted(BeforeMonitoring(s, g, i), u.name)
      ensures u.metrics.sharpe <= v.metrics.sharpe
    {
      var n :| 0 <= n < |vs| && vs[n] == u;
      PromotesExactlyTheFirst(t, vs, Tried(vs), u.name);
      assert n >= Tried(vs);
    }
  }

  /**
   Unless its breaker skips the phase, promotion makes exactly the two best validated candidates live, or all if there
   are fewer, next to what was live; a skipped phase changes nothing. New allocations are 0.05.
   */
  lemma {:induction false} BestTwoGoLive(s: State, g: Guards, i: Inputs, name: string)
    ensures var before, after, vs := BeforePromotion(s, g, i), BeforeMonitoring(s, g, i), ValidatedBy(g, i);
            && (Skips(g.signal, i.promotionTimes) ==> after == before)
            && (!Skips(g.signal, i.promotionTimes) ==>
                  (Promoted(after, name) <==>
                     Promoted(before, name) || exists j :: 0 <= j < |vs| && j < 2 && vs[j].name == name))
            && (Promoted(before, name) ==> after.table[name] == before.table[name])
            && (!Promoted(before, name) && Promoted(after, name) ==> after.table[name].allocation == 0.05)
  {
    var vs, t := ValidatedBy(g, i), BeforePromotion(s, g, i);
    forall u | u in vs
      ensures u.name in t.table
    {
      var n := ValidatedWasDiscovered(g, i, u);
      BeforePromotionFacts(s, g, i, u.name);
    }
    PromotesExactlyTheFirst(t, vs, Tried(vs), name);
  }

  // ---- The statistics agree with the histories ----

  lemma {:induction false} PromotedNamesAreRecorded(s: State, vs: seq<V.Validated>, k: nat)
    requires k <= |vs| && forall v :: v in vs ==> v.name in s.table
    ensures |PromoteFirst(s, vs, k).promotions| == |s.promotions| + |PromotedNames(s, vs, k)|
  {
    if k > 0 {
      PromotedNamesAreRecorded(s, vs, k - 1);
      PromotesExactlyTheFirst(s, vs, k - 1, vs[k - 1].name);
      assert vs[k - 1] in vs;
    }
  }

  lemma {:induction false} RetiredAreRecorded(s: State, names: seq<string>, live: string -> Live, k: nat)
    requires k <= |names|
    ensures var r := Monitor(s, names, live, k); |r.state.retirements| == |s.retirements| + |r.retired|
  {
    if k > 0 {
      RetiredAreRecorded(s, names, live, k - 1);
    }
  }

  /**
   The promoted count is the growth of the promotion history; the retired count too, unless monitoring raised: then it
   is 0.
   */
  lemma {:induction false} StatsMatchHistories(s: State, g: Guards, i: Inputs, names: seq<string>)
    requires ListsPromoted(names, BeforeMonitoring(s, g, i))
    ensures var t, stats := Cycle(s, g, i, names), StatsOf(s, g, i, names);
            var r := Monitored(BeforeMonitoring(s, g, i), SignalAfterPromotion(g.signal, i), i, names);
            && |t.promotions| == |s.promotions| + stats.promoted
            && |t.retirements| == |s.retirements| + |r.retired| && stats.retired == if r.failed then 0 else |r.retired|
  {
    var vs, b := ValidatedBy(g, i), BeforePromotion(s, g, i);
    forall u | u in vs
      ensures u.name in b.table
    {
      var n := ValidatedWasDiscovered(g, i, u);
      BeforePromotionFacts(s, g, i, u.name);
    }
    BeforePromotionFacts(s, g, i, "");
    PromotedNamesAreRecorded(b, vs, Tried(vs));
    if vs != [] {
      PromotesExactlyTheFirst(b, vs, Tried(vs), "");
    }
    RetiredAreRecorded(BeforeMonitoring(s, g, i), names, i.live, |names|);
    MonitorKeeps(BeforeMonitoring(s, g, i), names, i.live, |names|, "");
  }

  /** The statistics name exactly the phases a breaker kept out, and count what came of the others. */
  lemma {:induction false} StatsSayWhatHappened(s: State, g: Guards, i: Inputs, names: seq<string>, phase: PhaseName)
    ensures var stats := StatsOf(s, g, i, names);
            var r := Monitored(BeforeMonitoring(s, g, i), SignalAfterPromotion(g.signal, i), i, names);
            && (phase in stats.skipped <==>
                  match phase
                  case DiscoveryPhase => Skips(g.strategy, i.discoveryTimes)
                  case ValidationPhase => Skips(g.backtest, i.validationTimes)
                  case PromotionPhase => Skips(g.signal, i.promotionTimes)
                  case MonitoringPhase => Skips(SignalAfterPromotion(g.signal, i), i.monitoringTimes))
            && (phase.DiscoveryPhase? && phase in stats.skipped ==> stats.discovered == 0)
            && (phase.ValidationPhase? && phase in stats.skipped ==> stats.validated == 0)
            && (phase.PromotionPhase? && phase in stats.skipped ==> stats.promoted == 0)
            && (phase.MonitoringPhase? && phase in stats.skipped ==> stats.adjusted == 0 == stats.retired)
            && (Completed(i.discovery) && !Skips(g.strategy, i.discoveryTimes) ==>
                  stats.discovered == |Discovered(g.strategy, i)|)
            && stats.adjusted == if r.failed then 0 else |r.adjusted|
  {
  }

  // ---- Every run of cycles ----

  /** One cycle, with the order in which its promoted strategies are monitored. */
  datatype Turn = Turn(inputs: Inputs, names: seq<string>)

  function StateAfter(s: State, g: Guards, turns: seq<Turn>): State {
    if turns == [] then s
    else
      var init, t := turns[..|turns| - 1], turns[|turns| - 1];
      Cycle(StateAfter(s, g, init), GuardsAfterAll(s, g, init), t.inputs, t.names)
  }

  function GuardsAfterAll(s: State, g: Guards, turns: seq<Turn>): Guards {
    if turns == [] then g
    else
      var init, t := turns[..|turns| - 1], turns[|turns| - 1];
      GuardsAfter(StateAfter(s, g, init), GuardsAfterAll(s, g, init), t.inputs, t.names)
  }

  /** Every cycle monitors exactly the strategies that are live then. */
  ghost predicate ProperRun(s: State, g: Guards, turns: seq<Turn>) {
    turns == [] ||
    var init, t := turns[..|turns| - 1], turns[|turns| - 1];
    && ProperRun(s, g, init)
    && ListsPromoted(t.names, BeforeMonitoring(StateAfter(s, g, init), GuardsAfterAll(s, g, init), t.inputs))
  }

  /** In how many cycles of a run the name was discovered while live. */
  function Rediscoveries(s: State, g: Guards, turns: seq<Turn>, name: string): nat {
    if turns == [] then 0
    else
      var init, t := turns[..|turns| - 1], turns[|turns| - 1];
      Rediscoveries(s, g, init, name)
      + if Rediscovered(StateAfter(s, g, init), GuardsAfterAll(s, g, init), t.inputs, name) then 1 else 0
  }

  /**
   Over every run from the empty state and for every name: promotions minus retirements exceed what is live by exactly
   the number of cycles that rediscovered the name while it was live; a live allocation lies in [0.01, 0.25]; and at
   most two promotions happen per cycle.
   */
  lemma {:induction false} RunLedger(g: Guards, turns: seq<Turn>, name: string)
    requires ProperRun(EMPTY_STATE, g, turns)
    ensures var t := StateAfter(EMPTY_STATE, g, turns);
            && CountOf(t.promotions, name) - CountOf(t.retirements, name)
               == (if Promoted(t, name) then 1 else 0) + Rediscoveries(EMPTY_STATE, g, turns, name)
            && AllocationInRange(t, name)
            && |t.promotions| <= 2 * |turns|
  {
    if turns != [] {
      var init, t := turns[..|turns| - 1], turns[|turns| - 1];
      RunLedger(g, init, name);
      CycleLedger(StateAfter(EMPTY_STATE, g, init), GuardsAfterAll(EMPTY_STATE, g, init), t.inputs, t.names, name);
    }
  }

  /** So promotions minus retirements say what is live if and only if no live name was ever discovered again. */
  lemma {:induction false} LedgerIsExactIff(g: Guards, turns: seq<Turn>, name: string)
    requires ProperRun(EMPTY_STATE, g, turns)
    ensures var t := StateAfter(EMPTY_STATE, g, turns);
            CountOf(t.promotions, name) - CountOf(t.retirements, name) == (if Promoted(t, name) then 1 else 0)
            <==> Rediscoveries(EMPTY_STATE, g, turns, name) == 0
  {
    RunLedger(g, turns, name);
  }

  // ---- A run in which the ledger fails ----

  const NO_BREAKER := Guard(None, Limits(0, 0.0))

  const NO_BREAKERS := Guards(NO_BREAKER, NO_BREAKER, NO_BREAKER)

  const GOOD := V.Metrics(1.0, 0.5, 0.0, 0.0, 5.0, 0.0, 0.0)

  /** A cycle that discovers "x", which does as well as `answer` in every backtest and has no live metrics. */
  function DiscoverX(answer: V.Answer): Inputs {
    var t := Times(0.0, 0.0);
    Inputs(Listed([Some("x")]), (k: nat, symbol: string) => answer, (name: string) => Unavailable, t, t, t, t)
  }

  lemma {:induction false} ValidateOneName(ask: (nat, string) -> V.Answer, name: string, symbols: seq<string>,
                                           ms: seq<V.Metrics>)
    requires V.OnSymbols(V.At(ask, 0), symbols) == Success(Some(ms)) && ms != []
    ensures V.Validate(ask, [name], symbols) == Success([V.Validated(name, V.Aggregate(ms), ms)])
  {
    var v := V.Validated(name, V.Aggregate(ms), ms);
    assert [name][..0] == [] && [v][..0] == [];
    assert V.ValidateOne(ask, 0, name, symbols) == Success([v]);
    assert V.Collect(ask, [], symbols) == Success([]);
    assert [] + [v] == [v];
    assert V.Ranked([v]) == [v];
  }

  lemma {:induction false} GoodEarns()
    ensures V.OnSymbols(V.At(DiscoverX(V.Backtested(GOOD)).backtest, 0), V.BACKTEST_SYMBOLS)
         == Success(Some([GOOD, GOOD]))
  {
    var ms := [GOOD, GOOD];
    assert forall i :: 0 <= i < |ms| ==> ms[i] == GOOD;
    V.EarnedOnSymbols(V.At(DiscoverX(V.Backtested(GOOD)).backtest, 0), V.BACKTEST_SYMBOLS, ms);
  }

  lemma {:induction false} XIsValidated() returns (v: V.Validated)
    ensures v.name == "x" && ValidatedBy(NO_BREAKERS, DiscoverX(V.Backtested(GOOD))) == [v]
  {
    var i := DiscoverX(V.Backtested(GOOD));
    var ms := [GOOD, GOOD];
    GoodEarns();
    ValidateOneName(i.backtest, "x", V.BACKTEST_SYMBOLS, ms);
    v := V.Validated("x", V.Aggregate(ms), ms);
  }

  lemma {:induction false} XIsPromoted(s: State)
    ensures Promoted(BeforeMonitoring(s, NO_BREAKERS, DiscoverX(V.Backtested(GOOD))), "x")
  {
    var i := DiscoverX(V.Backtested(GOOD));
    var v := XIsValidated();
    BeforePromotionFacts(s, NO_BREAKERS, i, "x");
    PromotesExactlyTheFirst(BeforePromotion(s, NO_BREAKERS, i), [v], 1, "x");
  }

  lemma ListingExists(s: State) returns (names: seq<string>)
    ensures ListsPromoted(names, s)
  {
    names := [];
    var left := s.table.Keys;
    while left != {}
      invariant left <= s.table.Keys && Distinct(names)
      invariant forall n :: n in names <==> n in s.table.Keys - left && Promoted(s, n)
    {
      var n :| n in left;
      left := left - {n};
      if Promoted(s, n) {
        names := names + [n];
      }
    }
  }

  lemma {:induction false} NoMetricsNoChange(s: State, names: seq<string>, live: string -> Live, k: nat)
    requires k <= |names| && forall n :: live(n) == Unavailable
    ensures Monitor(s, names, live, k) == Progress(s, [], [], false)
  {
    if k > 0 {
      NoMetricsNoChange(s, names, live, k - 1);
    }
  }

  lemma {:induction false} XGoesLive(names: seq<string>)
    ensures var i := DiscoverX(V.Backtested(GOOD));
            Rediscovered(Cycle(EMPTY_STATE, NO_BREAKERS, i, names), NO_BREAKERS, i, "x")
  {
    var i := DiscoverX(V.Backtested(GOOD));
    XIsPromoted(EMPTY_STATE);
    NoMetricsNoChange(BeforeMonitoring(EMPTY_STATE, NO_BREAKERS, i), names, i.live, |names|);
  }

  lemma NoBreakersStay(s: State, i: Inputs, names: seq<string>)
    ensures GuardsAfter(s, NO_BREAKERS, i, names) == NO_BREAKERS
  {
  }

  lemma {:induction false} OneMoreTurn(s: State, g: Guards, init: seq<Turn>, t: Turn, name: string)
    ensures var before, guards := StateAfter(s, g, init), GuardsAfterAll(s, g, init);
            && StateAfter(s, g, init + [t]) == Cycle(before, guards, t.inputs, t.names)
            && GuardsAfterAll(s, g, init + [t]) == GuardsAfter(before, guards, t.inputs, t.names)
            && Rediscoveries(s, g, init + [t], name)
               == Rediscoveries(s, g, init, name) + (if Rediscovered(before, guards, t.inputs, name) then 1 else 0)
            && (ProperRun(s, g, init + [t]) <==>
                  ProperRun(s, g, init) && ListsPromoted(t.names, BeforeMonitoring(before, guards, t.inputs)))
  {
    assert (init + [t])[..|init|] == init;
  }

  /** Two cycles that discover the same name suffice: the strategy is promoted, and overwritten without a retirement. */
  lemma {:induction false} RediscoveryHappens() returns (turns: seq<Turn>)
    ensures |turns| == 2 && ProperRun(EMPTY_STATE, NO_BREAKERS, turns)
    ensures Rediscoveries(EMPTY_STATE, NO_BREAKERS, turns, "x") == 1
  {
    var i := DiscoverX(V.Backtested(GOOD));
    var names := ListingExists(BeforeMonitoring(EMPTY_STATE, NO_BREAKERS, i));
    var t := Cycle(EMPTY_STATE, NO_BREAKERS, i, names);
    XGoesLive(names);
    NoBreakersStay(EMPTY_STATE, i, names);
    var more := ListingExists(BeforeMonitoring(t, NO_BREAKERS, i));
    OneMoreTurn(EMPTY_STATE, NO_BREAKERS, [], Turn(i, names), "x");
    assert [] + [Turn(i, names)] == [Turn(i, names)];
    OneMoreTurn(EMPTY_STATE, NO_BREAKERS, [Turn(i, names)], Turn(i, more), "x");
    turns := [Turn(i, names)] + [Turn(i, more)];
  }

  // ---- Breakers ----

  /** Each phase asks its breaker once and, if admitted, records one outcome before the next phase asks. */
  lemma GuardedIsOneCall(b: Breaker, l: Limits, t: Times, ok: bool)
    ensures Guarded(Guard(Some(b), l), t, ok) == Guard(Some(AfterCall(b, l, Call(t.ask, t.done, ok))), l)
  {
  }

  function PromotionCall(i: Inputs): Call {
    Call(i.promotionTimes.ask, i.promotionTimes.done, true)
  }

  function MonitoringCall(s: State, g: Guards, t: Turn): Call {
    var r := Monitored(BeforeMonitoring(s, g, t.inputs), SignalAfterPromotion(g.signal, t.inputs), t.inputs, t.names);
    Call(t.inputs.monitoringTimes.ask, t.inputs.monitoringTimes.done, !r.failed)
  }

  lemma CycleMakesTwoSignalCalls(s: State, g: Guards, t: Turn, b: Breaker, l: Limits)
    requires g.signal == Guard(Some(b), l)
    ensures GuardsAfter(s, g, t.inputs, t.names).signal
         == Guard(Some(AfterCall(AfterCall(b, l, PromotionCall(t.inputs)), l, MonitoringCall(s, g, t))), l)
  {
    GuardedIsOneCall(b, l, t.inputs.promotionTimes, true);
    GuardedIsOneCall(AfterCall(b, l, PromotionCall(t.inputs)), l, t.inputs.monitoringTimes, MonitoringCall(s, g, t).ok);
  }

  /** The calls a run makes through the breaker of the signal service: two per cycle. */
  function SignalCalls(s: State, g: Guards, turns: seq<Turn>): (calls: seq<Call>)
    ensures |calls| == 2 * |turns|
  {
    if turns == [] then []
    else
      var init, t := turns[..|turns| - 1], turns[|turns| - 1];
      SignalCalls(s, g, init)
      + [PromotionCall(t.inputs), MonitoringCall(StateAfter(s, g, init), GuardsAfterAll(s, g, init), t)]
  }

  lemma {:induction false} BeforePrefix(l: Limits, calls: seq<Call>, more: seq<Call>, k: nat)
    requires k <= |calls|
    ensures Before(l, calls + more, k) == Before(l, calls, k)
  {
    if k > 0 {
      BeforePrefix(l, calls, more, k - 1);
    }
  }

  lemma {:induction false} BeforeTwoMore(l: Limits, calls: seq<Call>, c: Call, d: Call)
    ensures Before(l, calls + [c, d], |calls| + 2) == AfterCall(AfterCall(Before(l, calls, |calls|), l, c), l, d)
  {
    BeforePrefix(l, calls, [c, d], |calls|);
    assert Before(l, calls + [c, d], |calls| + 1) == AfterCall(Before(l, calls, |calls|), l, c);
  }

  /** The breaker after those calls, each recorded before the next. */
  function SignalSeen(l: Limits, calls: seq<Call>): Guard {
    Guard(Some(Before(l, calls, |calls|)), l)
  }

  lemma SignalStep(s: State, g: Guards, t: Turn, l: Limits, calls: seq<Call>)
    requires g.signal == SignalSeen(l, calls)
    ensures GuardsAfter(s, g, t.inputs, t.names).signal
         == SignalSeen(l, calls + [PromotionCall(t.inputs), MonitoringCall(s, g, t)])
  {
    CycleMakesTwoSignalCalls(s, g, t, Before(l, calls, |calls|), l);
    BeforeTwoMore(l, calls, PromotionCall(t.inputs), MonitoringCall(s, g, t));
  }

  /**
   In every run the breaker shared by promotion and monitoring sees two calls per cycle, each recorded before the next.
   */
  lemma {:induction false} SignalBreakerSeesEveryCall(s: State, g: Guards, turns: seq<Turn>)
    requires g.signal.breaker == Some(FRESH)
    ensures GuardsAfterAll(s, g, turns).signal == SignalSeen(g.signal.limits, SignalCalls(s, g, turns))
  {
    if turns != [] {
      var init, t := turns[..|turns| - 1], turns[|turns| - 1];
      SignalBreakerSeesEveryCall(s, g, init);
      SignalStep(StateAfter(s, g, init), GuardsAfterAll(s, g, init), t, g.signal.limits, SignalCalls(s, g, init));
    }
  }

  // ---- The breakers of discovery and validation ----

  /** A phase that fails while its breaker is closed adds one failure, and opens it at the threshold. */
  lemma FailureCounts(g: Guard, t: Times)
    requires g.breaker.Some? && g.breaker.value.phase == CLOSED
    ensures !Skips(g, t)
    ensures var after := Guarded(g, t, false);
            && after.limits == g.limits && after.breaker.Some?
            && after.breaker.value.failures == g.breaker.value.failures + 1
            && after.breaker.value.lastFailure == t.done
            && after.breaker.value.phase == if g.breaker.value.failures + 1 >= g.limits.threshold then OPEN else CLOSED
  {
  }

  /** Fewer failed cycles than the threshold: the breaker is closed and has counted them. */
  predicate Counted(g: Guard, l: Limits, failures: nat) {
    g.limits == l && g.breaker.Some? && g.breaker.value.phase == CLOSED && g.breaker.value.failures == failures
  }

  /** The breaker opened at `at`: it skips exactly what comes before recovery. */
  ghost predicate Suspended(g: Guard, l: Limits, at: real) {
    && g.limits == l && g.breaker.Some? && g.breaker.value.phase == OPEN
    && forall t: Times :: Skips(g, t) <==> t.ask - at < l.recovery
  }

  /** What a breaker has become after `k` failures in a row from fresh, the last at `at`. */
  ghost predicate AfterFailures(g: Guard, l: Limits, k: nat, at: real) {
    if k < l.threshold then Counted(g, l, k) else Suspended(g, l, at)
  }

  lemma OneMoreFailure(g: Guard, l: Limits, k: nat, at: real, t: Times, after: Guard)
    requires k < l.threshold && AfterFailures(g, l, k, at) && after == Guarded(g, t, false)
    ensures AfterFailures(after, l, k + 1, t.done)
  {
    FailureCounts(g, t);
  }

  /**
   Failed discoveries in a row are counted, and as many as the threshold suspend discovery: what comes next skips it
   exactly when it comes before recovery.
   */
  lemma {:induction false} FailingDiscoveryIsSuspended(s: State, g: Guards, turns: seq<Turn>)
    requires g.strategy.breaker == Some(FRESH) && |turns| <= g.strategy.limits.threshold
    requires forall t :: t in turns ==> !Completed(t.inputs.discovery)
    ensures turns != [] ==> AfterFailures(GuardsAfterAll(s, g, turns).strategy, g.strategy.limits, |turns|,
                                          turns[|turns| - 1].inputs.discoveryTimes.done)
  {
    if turns != [] {
      var init, t := turns[..|turns| - 1], turns[|turns| - 1];
      FailingDiscoveryIsSuspended(s, g, init);
      OneMoreFailure(GuardsAfterAll(s, g, init).strategy, g.strategy.limits, |init|,
                     if init == [] then 0.0 else init[|init| - 1].inputs.discoveryTimes.done, t.inputs.discoveryTimes,
                     GuardsAfterAll(s, g, turns).strategy);
    }
  }

  /** In that turn the validation, if it is reached, raises. */
  ghost predicate ValidationFails(s: State, g: Guards, turns: seq<Turn>, k: nat)
    requires k < |turns|
  {
    var i := turns[k].inputs;
    V.Validate(i.backtest, Discovered(GuardsAfterAll(s, g, turns[..k]).strategy, i), V.BACKTEST_SYMBOLS).Failure?
  }

  lemma {:induction false} FailedValidationStep(s: State, g: Guards, turns: seq<Turn>, k: nat)
    requires k < |turns| && ValidationFails(s, g, turns, k)
    ensures GuardsAfterAll(s, g, turns[..k + 1]).backtest
         == Guarded(GuardsAfterAll(s, g, turns[..k]).backtest, turns[k].inputs.validationTimes, false)
  {
    assert turns[..k + 1][..k] == turns[..k];
  }

  /** Validations that raise suspend validation in the same way, counted over the first cycles of a run. */
  lemma {:induction false} FailingValidationIsSuspended(s: State, g: Guards, turns: seq<Turn>, k: nat)
    requires g.backtest.breaker == Some(FRESH) && k <= |turns| && k <= g.backtest.limits.threshold
    requires forall j :: 0 <= j < k ==> ValidationFails(s, g, turns, j)
    ensures k > 0 ==> AfterFailures(GuardsAfterAll(s, g, turns[..k]).backtest, g.backtest.limits, k,
                                    turns[k - 1].inputs.validationTimes.done)
  {
    if k > 0 {
      FailingValidationIsSuspended(s, g, turns, k - 1);
      FailedValidationStep(s, g, turns, k - 1);
      OneMoreFailure(GuardsAfterAll(s, g, turns[..k - 1]).backtest, g.backtest.limits, k - 1,
                     if k == 1 then 0.0 else turns[k - 2].inputs.validationTimes.done,
                     turns[k - 1].inputs.validationTimes, GuardsAfterAll(s, g, turns[..k]).backtest);
    }
  }

  // ---- The signal breaker ----

  /**
   One cycle takes a closed breaker back to a closed one, and a monitoring phase that raises leaves one failure at
   most.
   */
  lemma CycleKeepsSignalClosed(s: State, g: Guards, t: Turn)
    requires g.signal.breaker.Some? && g.signal.breaker.value.phase == CLOSED
    ensures !Skips(g.signal, t.inputs.promotionTimes)
    ensures !Skips(SignalAfterPromotion(g.signal, t.inputs), t.inputs.monitoringTimes)
    ensures var after, failed := GuardsAfter(s, g, t.inputs, t.names).signal, !MonitoringCall(s, g, t).ok;
            && after.limits == g.signal.limits && after.breaker.Some?
            && after.breaker.value.failures == (if failed then 1 else 0)
            && (after.breaker.value.phase == OPEN <==> failed && g.signal.limits.threshold <= 1)
            && after.breaker.value.phase != HALF_OPEN
  {
    CycleMakesTwoSignalCalls(s, g, t, g.signal.breaker.value, g.signal.limits);
  }

  /**
   With a threshold of at least 2 (the program's is 3) that breaker never opens: promotion cannot fail, and its success
   clears the failure monitoring may have left. So no run ever skips promotion or monitoring.
   */
  lemma {:induction false} SignalBreakerNeverOpens(s: State, g: Guards, turns: seq<Turn>, next: Inputs)
    requires g.signal.breaker == Some(FRESH) && g.signal.limits.threshold >= 2
    ensures var signal := GuardsAfterAll(s, g, turns).signal;
            && signal.limits == g.signal.limits
            && signal.breaker.Some? && signal.breaker.value.phase == CLOSED && 0 <= signal.breaker.value.failures <= 1
            && !Skips(signal, next.promotionTimes) && !Skips(SignalAfterPromotion(signal, next), next.monitoringTimes)
  {
    if turns != [] {
      var init, t := turns[..|turns| - 1], turns[|turns| - 1];
      SignalBreakerNeverOpens(s, g, init, t.inputs);
      CycleKeepsSignalClosed(StateAfter(s, g, init), GuardsAfterAll(s, g, init), t);
    }
    CycleKeepsSignalClosed(StateAfter(s, g, turns), GuardsAfterAll(s, g, turns), Turn(next, []));
  }
}
