/** The monitoring phase: live performance moves the allocation of each promoted strategy, or retires it. */
module Monitoring {
  import opened OrchestrationState

  const INCREASE_THRESHOLD: real := 0.7
  const DECREASE_THRESHOLD: real := 0.3
  const RETIREMENT_THRESHOLD: real := 0.0

  /** What the live metrics of a strategy turned out to be; `Malformed` makes the phase raise. */
  datatype Live = Unavailable | Measured(metrics: Metrics) | Malformed

  datatype Adjustment = Adjustment(name: string, before: real, after: real, sharpe: real)

  /** `failed` when the loop was left by an exception. */
  datatype Progress = Progress(state: State, adjusted: seq<Adjustment>, retired: seq<string>, failed: bool)

  function SharpeOf(m: Metrics): real {
    if "sharpe_ratio" in m then m["sharpe_ratio"] else 0.0
  }

  predicate InRange(weight: real) {
    0.01 <= weight <= 0.25
  }

  function NewAllocation(weight: real, sharpe: real): (r: real)
    ensures InRange(weight) ==> InRange(r)
  {
    if sharpe >= INCREASE_THRESHOLD then (if weight * 1.25 < MAX_ALLOCATION then weight * 1.25 else MAX_ALLOCATION)
    else if sharpe <= DECREASE_THRESHOLD then (if weight * 0.75 > MIN_ALLOCATION then weight * 0.75 else MIN_ALLOCATION)
    else weight
  }

  /** A change of at most 0.001 is not stored. */
  predicate Matters(before: real, after: real) {
    after - before > 0.001 || before - after > 0.001
  }

  function Updated(c: Candidate, m: Metrics): Candidate {
    var after := NewAllocation(c.allocation, SharpeOf(m));
    c.(allocation := if Matters(c.allocation, after) then after else c.allocation, metrics := c.metrics + m)
  }

  /**
   What becomes of a live allocation: winners grow and losers shrink, except that the cap is not reached from above
   0.249 nor the floor from below 0.011, since a change of 0.001 or less is dropped. Between the thresholds nothing
   moves.
   */
  lemma AllocationFollowsSharpe(c: Candidate, m: Metrics)
    requires InRange(c.allocation)
    ensures var after := Updated(c, m).allocation;
            && InRange(after)
            && (after > c.allocation <==> SharpeOf(m) >= INCREASE_THRESHOLD && c.allocation < MAX_ALLOCATION - 0.001)
            && (after < c.allocation <==> SharpeOf(m) <= DECREASE_THRESHOLD && c.allocation > MIN_ALLOCATION + 0.001)
  {
    assert c.allocation * 0.25 >= 0.0025;
  }

  function Adjusted(name: string, c: Candidate, m: Metrics): seq<Adjustment> {
    var after := NewAllocation(c.allocation, SharpeOf(m));
    if Matters(c.allocation, after) then [Adjustment(name, c.allocation, after, SharpeOf(m))] else []
  }

  /** One pass of the loop. */
  function MonitorOne(r: Progress, name: string, live: Live): Progress {
    if r.failed || name !in r.state.table then r
    else match live
      case Unavailable => r
      case Malformed => r.(failed := true)
      case Measured(m) =>
        var c := r.state.table[name];
        if m == map[] then r
        else if SharpeOf(m) < RETIREMENT_THRESHOLD then
          r.(state := Retired(r.state, name), retired := r.retired + [name])
        else
          r.(state := r.state.(table := r.state.table[name := Updated(c, m)]),
             adjusted := r.adjusted + Adjusted(name, c, m))
  }

  function Monitor(s: State, names: seq<string>, live: string -> Live, k: nat): Progress
    requires k <= |names|
  {
    if k == 0 then Progress(s, [], [], false)
    else MonitorOne(Monitor(s, names, live, k - 1), names[k - 1], live(names[k - 1]))
  }

  /** A strategy not yet monitored is untouched by the monitoring of the others. */
  lemma {:induction false} NotYetMonitored(s: State, names: seq<string>, live: string -> Live, k: nat, name: string)
    requires k <= |names| && name !in names[..k] && name in s.table
    ensures var t := Monitor(s, names, live, k).state; name in t.table && t.table[name] == s.table[name]
  {
    if k > 0 {
      assert names[..k] == names[..k - 1] + [names[k - 1]];
      NotYetMonitored(s, names, live, k - 1, name);
    }
  }

  /** A retired strategy, as the metrics of this cycle decide it. */
  predicate Fails(live: Live) {
    live.Measured? && live.metrics != map[]
    && "sharpe_ratio" in live.metrics && live.metrics["sharpe_ratio"] < 0.0
  }

  /**
   The allocation that follows a Sharpe ratio: a quarter more from 0.7 on, up to the cap of 0.25, a quarter less up to
   0.3, down to the floor of 0.01, and the same in between; a change of at most 0.001 is not made.
   */
  predicate Follows(before: real, after: real, sharpe: real) {
    && (sharpe >= 0.7 && before <= 0.2 ==> after == 1.25 * before)
    && (sharpe >= 0.7 && 0.2 < before < 0.249 ==> after == 0.25)
    && (sharpe <= 0.3 && 75.0 * before >= 1.0 ==> after == 0.75 * before)
    && (sharpe <= 0.3 && 75.0 * before < 1.0 && before > 0.011 ==> after == 0.01)
    && ((sharpe >= 0.7 && before >= 0.249) || (sharpe <= 0.3 && before <= 0.011) || 0.3 < sharpe < 0.7
        ==> after == before)
  }

  lemma UpdatedFollows(c: Candidate, m: Metrics)
    requires InRange(c.allocation)
    ensures Follows(c.allocation, Updated(c, m).allocation, if "sharpe_ratio" in m then m["sharpe_ratio"] else 0.0)
  {
  }

  /** What one monitoring leaves of a strategy: nothing if it fails, its record if nothing was read, or a new one. */
  predicate Became(before: Candidate, live: Live, name: string, after: State) {
    if Fails(live) then name !in after.table
    else
      && name in after.table
      && var c := after.table[name];
         if live.Measured? && live.metrics != map[] then
           && c == before.(allocation := c.allocation, metrics := before.metrics + live.metrics)
           && (InRange(before.allocation) ==>
                 Follows(before.allocation, c.allocation,
                         if "sharpe_ratio" in live.metrics then live.metrics["sharpe_ratio"] else 0.0))
         else c == before
  }

  predicate Reports(adjusted: seq<Adjustment>, name: string) {
    exists a :: a in adjusted && a.name == name
  }

  lemma {:induction false} MonitorOneOutcome(r: Progress, name: string, live: Live)
    requires name in r.state.table && !r.failed && !MonitorOne(r, name, live).failed
    ensures Became(r.state.table[name], live, name, MonitorOne(r, name, live).state)
    ensures MonitorOne(r, name, live).retired == r.retired + if Fails(live) then [name] else []
    ensures var t := MonitorOne(r, name, live);
            if !Fails(live) && t.state.table[name].allocation != r.state.table[name].allocation then
              t.adjusted == r.adjusted + [Adjustment(name, r.state.table[name].allocation,
                                                     t.state.table[name].allocation, SharpeOf(live.metrics))]
            else t.adjusted == r.adjusted
    ensures forall n :: n != name ==>
              (n in MonitorOne(r, name, live).state.table <==> n in r.state.table)
              && (n in r.state.table ==> MonitorOne(r, name, live).state.table[n] == r.state.table[n])
  {
    assert r.retired + [] == r.retired && r.adjusted + [] == r.adjusted;
    if live.Measured? && InRange(r.state.table[name].allocation) {
      UpdatedFollows(r.state.table[name], live.metrics);
    }
  }

  /**
   What monitoring makes of each live strategy, as far as the loop has come without an exception: it is retired exactly
   when its metrics were read, are not empty and have a Sharpe ratio below 0; every other one stays live, as it was if
   nothing was read, with the allocation that follows its Sharpe ratio otherwise, and is reported exactly when that
   changed. What has not been reached is untouched.
   */
  lemma {:induction false} MonitoringOutcome(s: State, names: seq<string>, live: string -> Live, k: nat, i: nat)
    requires k <= |names| && ListsPromoted(names, s) && !Monitor(s, names, live, k).failed && i < |names|
    ensures names[i] in s.table
    ensures var r := Monitor(s, names, live, k);
            if i < k then
              && Became(s.table[names[i]], live(names[i]), names[i], r.state)
              && (names[i] in r.retired <==> Fails(live(names[i])))
              && (Promoted(r.state, names[i]) <==> !Fails(live(names[i])))
              && (Reports(r.adjusted, names[i]) <==>
                    Promoted(r.state, names[i]) && r.state.table[names[i]].allocation != s.table[names[i]].allocation)
            else
              && names[i] !in r.retired && !Reports(r.adjusted, names[i])
              && names[i] in r.state.table && r.state.table[names[i]] == s.table[names[i]]
  {
    assert names[i] in names;
    if k > 0 {
      var before, name := Monitor(s, names, live, k - 1), names[k - 1];
      MonitoringOutcome(s, names, live, k - 1, k - 1);
      MonitoringOutcome(s, names, live, k - 1, i);
      MonitorOneOutcome(before, name, live(name));
    }
  }

  lemma {:induction false} FailureEndsTheLoop(s: State, names: seq<string>, live: string -> Live, i: nat, k: nat)
    requires i <= k <= |names| && Monitor(s, names, live, i).failed
    ensures Monitor(s, names, live, k) == Monitor(s, names, live, i)
  {
    if i < k {
      FailureEndsTheLoop(s, names, live, i, k - 1);
    }
  }

  /** What became of one strategy whose metrics were read. */
  method MonitorStrategy(state: Orchestration, name: string, candidate: CandidateRecord, m: Metrics,
                         ghost before: Progress)
    returns (adjusted: seq<Adjustment>, retired: seq<string>)
    requires state.Valid() && name in state.candidates && state.candidates[name] == candidate && m != map[]
    requires before.state == state.View() && !before.failed
    modifies state`candidates, state`retirements, candidate
    ensures state.Valid()
    ensures Progress(state.View(), before.adjusted + adjusted, before.retired + retired, false)
         == MonitorOne(before, name, Measured(m))
    ensures forall n :: n in old(state.candidates) && n != name ==>
              n in state.candidates && state.candidates[n] == old(state.candidates[n])
  {
    var sharpe := SharpeOf(m);
    if sharpe < RETIREMENT_THRESHOLD {
      state.Retire(name);
      assert before.adjusted + [] == before.adjusted;
      return [], [name];
    }
    ghost var c := candidate.View();
    var after := NewAllocation(candidate.allocation, sharpe);
    adjusted, retired := [], [];
    if Matters(candidate.allocation, after) {
      adjusted := [Adjustment(name, candidate.allocation, after, sharpe)];
      candidate.allocation := after;
    }
    candidate.metrics := candidate.metrics + m;
    assert before.retired + [] == before.retired;
    assert state.View().table == before.state.table[name := Updated(c, m)];
  }

  /** One pass of the loop, on the record itself. */
  method MonitorCandidate(state: Orchestration, candidate: CandidateRecord, metrics: Live, ghost before: Progress)
    returns (adjusted: seq<Adjustment>, retired: seq<string>, failed: bool)
    requires state.Valid() && candidate.name in state.candidates && state.candidates[candidate.name] == candidate
    requires before.state == state.View() && !before.failed
    modifies state`candidates, state`retirements, candidate
    ensures state.Valid()
    ensures Progress(state.View(), before.adjusted + adjusted, before.retired + retired, failed)
         == MonitorOne(before, candidate.name, metrics)
    ensures forall n :: n in old(state.candidates) && n != candidate.name ==>
              n in state.candidates && state.candidates[n] == old(state.candidates[n])
  {
    adjusted, retired, failed := [], [], metrics.Malformed?;
    assert before.adjusted + [] == before.adjusted && before.retired + [] == before.retired;
    if metrics.Measured? && metrics.metrics != map[] {
      adjusted, retired := MonitorStrategy(state, candidate.name, candidate, metrics.metrics, before);
    }
  }

  /** The snapshot still holds the records of the strategies from `i` on. */
  ghost predicate Holds(state: Orchestration, promoted: seq<CandidateRecord>, names: seq<string>, i: nat)
    reads state
  {
    && |promoted| == |names|
    && forall j :: i <= j < |names| ==> names[j] in state.candidates && promoted[j] == state.candidates[names[j]]
  }

  method MonitorNext(state: Orchestration, promoted: seq<CandidateRecord>, i: nat, live: string -> Live,
                     ghost names: seq<string>, ghost start: State, ghost before: Progress)
    returns (adjusted: seq<Adjustment>, retired: seq<string>, failed: bool)
    requires state.Valid() && Holds(state, promoted, names, i) && Distinct(names) && i < |promoted|
    requires before == Monitor(start, names, live, i) && before.state == state.View() && !before.failed
    modifies state`candidates, state`retirements, state.records
    ensures state.Valid() && Holds(state, promoted, names, i + 1)
    ensures Progress(state.View(), before.adjusted + adjusted, before.retired + retired, failed)
         == Monitor(start, names, live, i + 1)
  {
    adjusted, retired, failed := MonitorCandidate(state, promoted[i], live(promoted[i].name), before);
  }

  /** The loop over the snapshot, left when an exception is raised. */
  method MonitorEach(state: Orchestration, promoted: seq<CandidateRecord>, ghost names: seq<string>,
                     live: string -> Live)
    returns (adjusted: seq<Adjustment>, retired: seq<string>, failed: bool)
    requires state.Valid() && Distinct(names) && Holds(state, promoted, names, 0)
    modifies state`candidates, state`retirements, state.records
    ensures state.Valid()
    ensures Progress(state.View(), adjusted, retired, failed) == Monitor(old(state.View()), names, live, |names|)
  {
    ghost var start := state.View();
    adjusted, retired, failed := [], [], false;
    var i := 0;
    while i < |promoted| && !failed
      invariant 0 <= i <= |promoted| && state.Valid() && Holds(state, promoted, names, i)
      invariant Progress(state.View(), adjusted, retired, failed) == Monitor(start, names, live, i)
    {
      var a, r, f := MonitorNext(state, promoted, i, live, names, start, Monitor(start, names, live, i));
      adjusted, retired, failed := adjusted + a, retired + r, f;
      i := i + 1;
    }
    if failed {
      FailureEndsTheLoop(start, names, live, i, |names|);
    }
  }

  /** `monitor_promoted_strategies`; `names` is the order in which the dictionary lists the promoted strategies. */
  method MonitorPromotedStrategies(state: Orchestration, live: string -> Live)
    returns (adjusted: seq<Adjustment>, retired: seq<string>, failed: bool, ghost names: seq<string>)
    requires state.Valid()
    modifies state`candidates, state`retirements, state.records
    ensures state.Valid() && ListsPromoted(names, old(state.View()))
    ensures Progress(state.View(), adjusted, retired, failed) == Monitor(old(state.View()), names, live, |names|)
  {
    var promoted;
    promoted, names := state.GetPromotedStrategies();
    adjusted, retired, failed := MonitorEach(state, promoted, names, live);
  }
}
