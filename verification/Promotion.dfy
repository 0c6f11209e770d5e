/** The promotion phase: the best validated candidates go live. */
module Promotion {
  import opened OrchestrationState
  import Validation

  const MAX_PROMOTED_PER_CYCLE: nat := 2

  /** The numbers of an aggregate, as the dictionary stored with the candidate. */
  function Dict(m: Validation.Metrics): map<string, real> {
    map["sharpe_ratio" := m.sharpe, "win_rate" := m.winRate, "max_drawdown" := m.maxDrawdown,
        "cumulative_return" := m.cumulativeReturn, "total_trades" := m.totalTrades, "profit_factor" := m.profitFactor,
        "sortino_ratio" := m.sortino]
  }

  function PromoteOne(s: State, v: Validation.Validated): State {
    if Promoted(s, v.name) then s
    else PromotedState(Advanced(s, v.name, Dict(v.metrics)), v.name, INITIAL_ALLOCATION)
  }

  function PromoteFirst(s: State, vs: seq<Validation.Validated>, k: nat): State
    requires k <= |vs|
  {
    if k == 0 then s else PromoteOne(PromoteFirst(s, vs, k - 1), vs[k - 1])
  }

  function PromotedNames(s: State, vs: seq<Validation.Validated>, k: nat): (r: seq<string>)
    requires k <= |vs|
    ensures |r| <= k
  {
    if k == 0 then []
    else
      PromotedNames(s, vs, k - 1)
      + if Promoted(PromoteFirst(s, vs, k - 1), vs[k - 1].name) then [] else [vs[k - 1].name]
  }

  function Tried(vs: seq<Validation.Validated>): nat {
    if |vs| < MAX_PROMOTED_PER_CYCLE then |vs| else MAX_PROMOTED_PER_CYCLE
  }

  /** `promote_winners` */
  method PromoteWinners(state: Orchestration, validated: seq<Validation.Validated>) returns (promoted: seq<string>)
    requires state.Valid()
    modifies state`promotions, state.records
    ensures state.Valid() && state.View() == PromoteFirst(old(state.View()), validated, Tried(validated))
    ensures promoted == PromotedNames(old(state.View()), validated, Tried(validated))
  {
    promoted := [];
    for i := 0 to Tried(validated)
      invariant state.Valid() && state.View() == PromoteFirst(old(state.View()), validated, i)
      invariant promoted == PromotedNames(old(state.View()), validated, i)
    {
      var v := validated[i];
      if v.name in state.candidates && state.candidates[v.name].phase == PROMOTION {
        assert Promoted(state.View(), v.name);
        assert promoted + [] == promoted;
      } else {
        assert !Promoted(state.View(), v.name);
        state.AdvanceToValidation(v.name, Dict(v.metrics));
        state.Promote(v.name, INITIAL_ALLOCATION);
        promoted := promoted + [v.name];
      }
    }
  }

  /** What promotion does to each name, when every validated name is a candidate. */
  lemma {:induction false} PromotesExactlyTheFirst(s: State, vs: seq<Validation.Validated>, k: nat, name: string)
    requires k <= |vs| && forall v :: v in vs ==> v.name in s.table
    ensures var t := PromoteFirst(s, vs, k);
            && t.cycle == s.cycle && t.retirements == s.retirements
            && (Promoted(t, name) <==> Promoted(s, name) || exists i :: 0 <= i < k && vs[i].name == name)
            && (name in t.table <==> name in s.table)
            && |t.promotions| <= |s.promotions| + k
            && (Promoted(s, name) ==> t.table[name] == s.table[name])
            && (!Promoted(s, name) && Promoted(t, name) ==> t.table[name].allocation == 0.05)
  {
    if k > 0 {
      PromotesExactlyTheFirst(s, vs, k - 1, name);
      PromotesExactlyTheFirst(s, vs, k - 1, vs[k - 1].name);
      assert vs[k - 1] in vs;
    }
  }
}
