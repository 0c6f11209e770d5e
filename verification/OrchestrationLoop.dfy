/** One orchestration cycle: discovery, validation, promotion and monitoring, each behind a circuit breaker. */
module OrchestrationLoop {
  import opened Wrappers
  import opened Resilience
  import opened OrchestrationState
  import opened Promotion
  import opened Monitoring
  import V = Validation

  datatype PhaseName = DiscoveryPhase | ValidationPhase | PromotionPhase | MonitoringPhase

  datatype Stats = Stats(discovered: nat, validated: nat, promoted: nat, adjusted: nat, retired: nat,
                         skipped: seq<PhaseName>)

  /** When the breaker of a phase is asked, and when the outcome of the phase is recorded. */
  datatype Times = Times(ask: real, done: real)

  /**
   What `run_discovery` comes to: it raises, or lists items of which some may be no names at all (`None`), such as the
   objects a language model may put into its summary. Adding one of those raises.
   */
  datatype Discovery = DiscoveryRaised | Listed(items: seq<Option<string>>)

  /** What the services answer during one cycle. */
  datatype Inputs = Inputs(
    discovery: Discovery,
    backtest: (nat, string) -> V.Answer,
    live: string -> Live,
    discoveryTimes: Times,
    validationTimes: Times,
    promotionTimes: Times,
    monitoringTimes: Times)

  /** A breaker, if the service has one, with its limits. */
  datatype Guard = Guard(breaker: Option<Breaker>, limits: Limits)

  predicate Skips(g: Guard, t: Times) {
    !Ask(g.breaker, g.limits, t.ask).1
  }

  /** The breaker after the phase: asked, and told the outcome if the phase was not skipped. */
  function Guarded(g: Guard, t: Times, ok: bool): Guard {
    var asked := Ask(g.breaker, g.limits, t.ask).0;
    g.(breaker := if Skips(g, t) then asked else Note(asked, g.limits, ok, t.done))
  }

  // ---- The phases as functions ----

  /** The names before the first item that is none. */
  function NamesBefore(items: seq<Option<string>>): (names: seq<string>)
    ensures |names| <= |items|
  {
    if items == [] then []
    else
      var init, last := NamesBefore(items[..|items| - 1]), items[|items| - 1];
      if |init| == |items| - 1 && last.Some? then init + [last.value] else init
  }

  /** Discovery came to its end: every item was added. */
  predicate Completed(d: Discovery) {
    d.Listed? && |NamesBefore(d.items)| == |d.items|
  }

  /** The names added to the state, even if adding then raised. */
  function AddedNames(g: Guard, i: Inputs): seq<string> {
    if Skips(g, i.discoveryTimes) || i.discovery.DiscoveryRaised? then [] else NamesBefore(i.discovery.items)
  }

  /** The names handed to validation: none if adding raised. */
  function Discovered(g: Guard, i: Inputs): seq<string> {
    if Completed(i.discovery) then AddedNames(g, i) else []
  }

  /** The reported number of discoveries is noted before they are added. */
  function Reported(g: Guard, i: Inputs): nat {
    if Skips(g, i.discoveryTimes) || i.discovery.DiscoveryRaised? then 0 else |i.discovery.items|
  }

  function AddAll(s: State, names: seq<string>, k: nat): State
    requires k <= |names|
  {
    if k == 0 then s else Added(AddAll(s, names, k - 1), names[k - 1])
  }

  function ValidatedIn(g: Guard, i: Inputs, discovered: seq<string>): seq<V.Validated> {
    if Skips(g, i.validationTimes) then [] else UnlessRaised(V.Validate(i.backtest, discovered, V.BACKTEST_SYMBOLS))
  }

  function UnlessRaised(result: Result<seq<V.Validated>, V.ValidationError>): seq<V.Validated> {
    if result.Success? then result.value else []
  }

  function AdvanceAll(s: State, vs: seq<V.Validated>, k: nat): State
    requires k <= |vs|
  {
    if k == 0 then s else Advanced(AdvanceAll(s, vs, k - 1), vs[k - 1].name, Dict(vs[k - 1].metrics))
  }

  datatype Guards = Guards(strategy: Guard, backtest: Guard, signal: Guard)

  /** The state before the promotion phase. */
  function BeforePromotion(s: State, g: Guards, i: Inputs): State {
    var added, validated := AddedNames(g.strategy, i), ValidatedIn(g.backtest, i, Discovered(g.strategy, i));
    AdvanceAll(AddAll(s.(cycle := s.cycle + 1), added, |added|), validated, |validated|)
  }

  function ValidatedBy(g: Guards, i: Inputs): seq<V.Validated> {
    ValidatedIn(g.backtest, i, Discovered(g.strategy, i))
  }

  function AfterPromotion(s: State, signal: Guard, i: Inputs, validated: seq<V.Validated>): State {
    if Skips(signal, i.promotionTimes) then s else PromoteFirst(s, validated, Tried(validated))
  }

  /** The state before the monitoring phase. */
  function BeforeMonitoring(s: State, g: Guards, i: Inputs): State {
    AfterPromotion(BeforePromotion(s, g, i), g.signal, i, ValidatedBy(g, i))
  }

  function Monitored(s: State, signal: Guard, i: Inputs, names: seq<string>): Progress {
    if Skips(signal, i.monitoringTimes) then Progress(s, [], [], false) else Monitor(s, names, i.live, |names|)
  }

  function SignalAfterPromotion(signal: Guard, i: Inputs): Guard {
    Guarded(signal, i.promotionTimes, true)
  }

  /** `run_cycle`: the state it leaves. `names` is the order in which the promoted strategies are monitored. */
  function Cycle(s: State, g: Guards, i: Inputs, names: seq<string>): State {
    Monitored(BeforeMonitoring(s, g, i), SignalAfterPromotion(g.signal, i), i, names).state
  }

  function GuardsAfter(s: State, g: Guards, i: Inputs, names: seq<string>): Guards {
    var discovered := Discovered(g.strategy, i);
    Guards(Guarded(g.strategy, i.discoveryTimes, Completed(i.discovery)),
           Guarded(g.backtest, i.validationTimes, V.Validate(i.backtest, discovered, V.BACKTEST_SYMBOLS).Success?),
           Guarded(SignalAfterPromotion(g.signal, i), i.monitoringTimes,
                   !Monitored(BeforeMonitoring(s, g, i), SignalAfterPromotion(g.signal, i), i, names).failed))
  }

  // ---- The statistics ----

  function SkippedLive(signal: Guard, i: Inputs): seq<PhaseName> {
    (if Skips(signal, i.promotionTimes) then [PromotionPhase] else [])
    + (if Skips(SignalAfterPromotion(signal, i), i.monitoringTimes) then [MonitoringPhase] else [])
  }

  /** The part of the last two phases. A monitoring phase that raised reports nothing, whatever it had done. */
  function LiveStats(s: State, signal: Guard, i: Inputs, validated: seq<V.Validated>, names: seq<string>): Stats {
    var r := Monitored(AfterPromotion(s, signal, i, validated), SignalAfterPromotion(signal, i), i, names);
    Stats(0, 0, if Skips(signal, i.promotionTimes) then 0 else |PromotedNames(s, validated, Tried(validated))|,
          if r.failed then 0 else |r.adjusted|, if r.failed then 0 else |r.retired|, SkippedLive(signal, i))
  }

  function StatsOf(s: State, g: Guards, i: Inputs, names: seq<string>): Stats {
    var live := LiveStats(BeforePromotion(s, g, i), g.signal, i, ValidatedBy(g, i), names);
    live.(discovered := Reported(g.strategy, i),
          validated := |ValidatedBy(g, i)|,
          skipped := (if Skips(g.strategy, i.discoveryTimes) then [DiscoveryPhase] else [])
                     + (if Skips(g.backtest, i.validationTimes) then [ValidationPhase] else []) + live.skipped)
  }

  // ---- The method ----

  ghost function GuardOf(breaker: CircuitBreaker?): Guard
    reads breaker
  {
    Guard(ViewOf(breaker), LimitsOf(breaker))
  }

  lemma {:induction false} NamesEndHere(items: seq<Option<string>>, k: nat)
    requires k <= |items| && |NamesBefore(items[..k])| < k
    ensures NamesBefore(items) == NamesBefore(items[..k])
  {
    if k == |items| {
      assert items[..k] == items;
    } else {
      assert items[..|items| - 1][..k] == items[..k];
      NamesEndHere(items[..|items| - 1], k);
    }
  }

  /** The loop that adds the discoveries, left when an item is no name. */
  method AddEach(state: Orchestration, items: seq<Option<string>>) returns (names: seq<string>)
    requires state.Valid()
    modifies state`candidates, state`records
    ensures state.Valid() && fresh(state.records - old(state.records))
    ensures names == NamesBefore(items) && state.View() == AddAll(old(state.View()), names, |names|)
  {
    ghost var start := state.View();
    names := [];
    for k := 0 to |items|
      invariant state.Valid() && fresh(state.records - old(state.records))
      invariant names == NamesBefore(items[..k]) && |names| == k && state.View() == AddAll(start, names, k)
    {
      assert items[..k + 1][..k] == items[..k];
      if items[k].None? {
        NamesEndHere(items, k + 1);
        return;
      }
      AddAllPrefix(start, names, [items[k].value], k);
      state.AddCandidate(items[k].value);
      names := names + [items[k].value];
    }
    assert items[..|items|] == items;
  }

  lemma {:induction false} AddAllPrefix(s: State, names: seq<string>, more: seq<string>, k: nat)
    requires k <= |names|
    ensures AddAll(s, names + more, k) == AddAll(s, names, k)
  {
    if k > 0 {
      AddAllPrefix(s, names, more, k - 1);
    }
  }

  method Discover(state: Orchestration, breaker: CircuitBreaker?, i: Inputs)
    returns (discovered: seq<string>, reported: nat, skipped: bool)
    requires state.Valid()
    modifies state`candidates, state`records, breaker
    ensures state.Valid() && fresh(state.records - old(state.records))
    ensures var g := old(GuardOf(breaker));
            && discovered == Discovered(g, i) && reported == Reported(g, i)
            && (skipped <==> Skips(g, i.discoveryTimes))
            && state.View() == AddAll(old(state.View()), AddedNames(g, i), |AddedNames(g, i)|)
            && GuardOf(breaker) == Guarded(g, i.discoveryTimes, Completed(i.discovery))
  {
    discovered, reported := [], 0;
    var allowed := AskBreaker(breaker, i.discoveryTimes.ask);
    skipped := !allowed;
    if allowed {
      if i.discovery.Listed? {
        reported := |i.discovery.items|;
        discovered := AddEach(state, i.discovery.items);
      }
      if !Completed(i.discovery) {
        discovered := [];
      }
      NoteBreaker(breaker, Completed(i.discovery), i.discoveryTimes.done);
    }
  }

  method AdvanceEach(state: Orchestration, validated: seq<V.Validated>)
    requires state.Valid()
    modifies state.records
    ensures state.Valid() && state.View() == AdvanceAll(old(state.View()), validated, |validated|)
  {
    for k := 0 to |validated|
      invariant state.Valid() && state.View() == AdvanceAll(old(state.View()), validated, k)
    {
      state.AdvanceToValidation(validated[k].name, Dict(validated[k].metrics));
    }
  }

  method ValidateAndAdvance(state: Orchestration, i: Inputs, discovered: seq<string>)
    returns (validated: seq<V.Validated>, ok: bool)
    requires state.Valid()
    modifies state.records
    ensures var result := V.Validate(i.backtest, discovered, V.BACKTEST_SYMBOLS);
            validated == UnlessRaised(result) && ok == result.Success?
    ensures state.Valid() && state.View() == AdvanceAll(old(state.View()), validated, |validated|)
  {
    var result := V.ValidateCandidates(i.backtest, discovered, V.BACKTEST_SYMBOLS);
    validated, ok := UnlessRaised(result), result.Success?;
    AdvanceEach(state, validated);
  }

  method ValidatePhase(state: Orchestration, breaker: CircuitBreaker?, i: Inputs, discovered: seq<string>)
    returns (validated: seq<V.Validated>, skipped: bool)
    requires state.Valid()
    modifies state.records, breaker
    ensures state.Valid()
    ensures validated == ValidatedIn(old(GuardOf(breaker)), i, discovered)
    ensures skipped <==> Skips(old(GuardOf(breaker)), i.validationTimes)
    ensures state.View() == AdvanceAll(old(state.View()), validated, |validated|)
    ensures GuardOf(breaker) == Guarded(old(GuardOf(breaker)), i.validationTimes,
                                        V.Validate(i.backtest, discovered, V.BACKTEST_SYMBOLS).Success?)
  {
    var allowed := AskBreaker(breaker, i.validationTimes.ask);
    if !allowed {
      return [], true;
    }
    var ok;
    validated, ok := ValidateAndAdvance(state, i, discovered);
    NoteBreaker(breaker, ok, i.validationTimes.done);
    skipped := false;
  }

  method PromotePhase(state: Orchestration, breaker: CircuitBreaker?, i: Inputs, validated: seq<V.Validated>)
    returns (promoted: seq<string>, skipped: bool)
    requires state.Valid()
    modifies state`promotions, state.records, breaker
    ensures state.Valid() && (skipped <==> Skips(old(GuardOf(breaker)), i.promotionTimes))
    ensures promoted == if skipped then [] else PromotedNames(old(state.View()), validated, Tried(validated))
    ensures state.View() == AfterPromotion(old(state.View()), old(GuardOf(breaker)), i, validated)
    ensures GuardOf(breaker) == Guarded(old(GuardOf(breaker)), i.promotionTimes, true)
  {
    var allowed := AskBreaker(breaker, i.promotionTimes.ask);
    if !allowed {
      return [], true;
    }
    skipped := false;
    promoted := PromoteWinners(state, validated);
    NoteBreaker(breaker, true, i.promotionTimes.done);
  }

  method MonitorPhase(state: Orchestration, breaker: CircuitBreaker?, i: Inputs)
    returns (adjusted: nat, retired: nat, skipped: bool, ghost names: seq<string>)
    requires state.Valid()
    modifies state`candidates, state`retirements, state.records, breaker
    ensures state.Valid() && ListsPromoted(names, old(state.View()))
    ensures skipped <==> Skips(old(GuardOf(breaker)), i.monitoringTimes)
    ensures var r := Monitored(old(state.View()), old(GuardOf(breaker)), i, names);
            && state.View() == r.state
            && adjusted == (if r.failed then 0 else |r.adjusted|) && retired == (if r.failed then 0 else |r.retired|)
            && GuardOf(breaker) == Guarded(old(GuardOf(breaker)), i.monitoringTimes, !r.failed)
  {
    var allowed := AskBreaker(breaker, i.monitoringTimes.ask);
    if !allowed {
      var promoted;
      promoted, names := state.GetPromotedStrategies();
      return 0, 0, true, names;
    }
    var a, r, failed;
    a, r, failed, names := MonitorPromotedStrategies(state, i.live);
    NoteBreaker(breaker, !failed, i.monitoringTimes.done);
    adjusted, retired, skipped := if failed then 0 else |a|, if failed then 0 else |r|, false;
  }

  /** The first two phases. */
  method Prepare(state: Orchestration, strategy: CircuitBreaker?, backtest: CircuitBreaker?, i: Inputs)
    returns (reported: nat, skippedDiscovery: bool, validated: seq<V.Validated>, skippedValidation: bool)
    requires state.Valid() && (strategy != null ==> strategy != backtest)
    modifies state`cycleNumber, state`candidates, state`records, state.records, strategy, backtest
    ensures state.Valid() && fresh(state.records - old(state.records))
    ensures var s, d := old(GuardOf(strategy)), old(GuardOf(backtest));
            && reported == Reported(s, i) && validated == ValidatedIn(d, i, Discovered(s, i))
            && (skippedDiscovery <==> Skips(s, i.discoveryTimes))
            && (skippedValidation <==> Skips(d, i.validationTimes))
            && state.View() == AdvanceAll(AddAll(old(state.View()).(cycle := old(state.View()).cycle + 1),
                                                 AddedNames(s, i), |AddedNames(s, i)|),
                                          validated, |validated|)
            && GuardOf(strategy) == Guarded(s, i.discoveryTimes, Completed(i.discovery))
            && GuardOf(backtest) == Guarded(d, i.validationTimes,
                                            V.Validate(i.backtest, Discovered(s, i), V.BACKTEST_SYMBOLS).Success?)
  {
    state.NextCycle();
    var discovered;
    discovered, reported, skippedDiscovery := Discover(state, strategy, i);
    validated, skippedValidation := ValidatePhase(state, backtest, i, discovered);
  }

  /** The last two phases, both behind the breaker of the signal service, and their part of the statistics. */
  method GoLive(state: Orchestration, signal: CircuitBreaker?, i: Inputs, validated: seq<V.Validated>)
    returns (stats: Stats, ghost names: seq<string>)
    requires state.Valid()
    modifies state`candidates, state`promotions, state`retirements, state.records, signal
    ensures state.Valid()
    ensures var g := old(GuardOf(signal)); var s := AfterPromotion(old(state.View()), g, i, validated);
            var r := Monitored(s, SignalAfterPromotion(g, i), i, names);
            && ListsPromoted(names, s) && state.View() == r.state
            && GuardOf(signal) == Guarded(SignalAfterPromotion(g, i), i.monitoringTimes, !r.failed)
            && stats == LiveStats(old(state.View()), g, i, validated, names)
  {
    var promoted, skippedPromotion := PromotePhase(state, signal, i, validated);
    var adjusted, retired, skippedMonitoring;
    adjusted, retired, skippedMonitoring, names := MonitorPhase(state, signal, i);
    stats := Stats(0, 0, |promoted|, adjusted, retired,
                   (if skippedPromotion then [PromotionPhase] else [])
                   + (if skippedMonitoring then [MonitoringPhase] else []));
  }

  /** `run_cycle` */
  method RunCycle(state: Orchestration, strategy: CircuitBreaker?, backtest: CircuitBreaker?, signal: CircuitBreaker?,
                  i: Inputs)
    returns (stats: Stats, ghost names: seq<string>)
    requires state.Valid()
    requires strategy != null ==> strategy != backtest && strategy != signal
    requires backtest != null ==> backtest != signal
    modifies state, state.records, strategy, backtest, signal
    ensures state.Valid()
    ensures var g := old(Guards(GuardOf(strategy), GuardOf(backtest), GuardOf(signal)));
            && ListsPromoted(names, BeforeMonitoring(old(state.View()), g, i))
            && state.View() == Cycle(old(state.View()), g, i, names)
            && Guards(GuardOf(strategy), GuardOf(backtest), GuardOf(signal))
               == GuardsAfter(old(state.View()), g, i, names)
            && stats == StatsOf(old(state.View()), g, i, names)
  {
    var reported, skippedDiscovery, validated, skippedValidation := Prepare(state, strategy, backtest, i);
    stats, names := GoLive(state, signal, i, validated);
    stats := stats.(
      discovered := reported,
      validated := |validated|,
      skipped := (if skippedDiscovery then [DiscoveryPhase] else [])
                 + (if skippedValidation then [ValidationPhase] else []) + stats.skipped);
  }
}
