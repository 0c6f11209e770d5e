/** The persistent state of the orchestration agent: candidates by name and the two histories. */
module OrchestrationState {

  const INITIAL_ALLOCATION: real := 0.05
  const MIN_ALLOCATION: real := 0.01
  const MAX_ALLOCATION: real := 0.25

  /** The phases a candidate can be stored in. */
  datatype Phase = DISCOVERY | VALIDATION | PROMOTION

  type Metrics = map<string, real>

  datatype Candidate = Candidate(phase: Phase, metrics: Metrics, allocation: real)

  const NEW_CANDIDATE := Candidate(DISCOVERY, map[], 0.0)

  datatype Entry = Entry(name: string, cycle: nat)

  datatype State = State(cycle: nat, table: map<string, Candidate>, promotions: seq<Entry>, retirements: seq<Entry>)

  const EMPTY_STATE := State(0, map[], [], [])

  predicate Promoted(s: State, name: string) {
    name in s.table && s.table[name].phase == PROMOTION
  }

  /** `add_candidate`: a candidate of that name is overwritten, whatever its phase. */
  function Added(s: State, name: string): State {
    s.(table := s.table[name := NEW_CANDIDATE])
  }

  /** `advance_to_validation` */
  function Advanced(s: State, name: string, metrics: Metrics): State {
    if name in s.table then s.(table := s.table[name := s.table[name].(phase := VALIDATION, metrics := metrics)]) else s
  }

  /** `promote` */
  function PromotedState(s: State, name: string, allocation: real): State {
    if name in s.table then
      s.(table := s.table[name := s.table[name].(phase := PROMOTION, allocation := allocation)],
         promotions := s.promotions + [Entry(name, s.cycle)])
    else s
  }

  /** `retire` */
  function Retired(s: State, name: string): State {
    if name in s.table then
      s.(table := s.table - {name}, retirements := s.retirements + [Entry(name, s.cycle)])
    else s
  }

  predicate Distinct(names: seq<string>) {
    forall i, j :: 0 <= i < j < |names| ==> names[i] != names[j]
  }

  /** `get_promoted_strategies`, by name and in the order of the dictionary. */
  ghost predicate ListsPromoted(names: seq<string>, s: State) {
    Distinct(names) && forall n :: n in names <==> Promoted(s, n)
  }

  // ---- The classes ----

  class CandidateRecord {
    const name: string
    var phase: Phase
    var metrics: Metrics
    var allocation: real

    constructor (name: string)
      ensures this.name == name && View() == NEW_CANDIDATE
    {
      this.name := name;
      phase, metrics, allocation := DISCOVERY, map[], 0.0;
    }

    function View(): Candidate
      reads this
    {
      Candidate(phase, metrics, allocation)
    }
  }

  class Orchestration {
    var cycleNumber: nat
    var candidates: map<string, CandidateRecord>
    ghost var records: set<CandidateRecord>    // every record ever stored
    var promotions: seq<Entry>
    var retirements: seq<Entry>

    /** No record is stored under two names. */
    ghost predicate Valid()
      reads this, records
    {
      forall n :: n in candidates ==> candidates[n] in records && candidates[n].name == n
    }

    ghost function View(): State
      requires Valid()
      reads this, records
    {
      State(cycleNumber, map n | n in candidates :: candidates[n].View(), promotions, retirements)
    }

    constructor ()
      ensures Valid() && View() == EMPTY_STATE && records == {}
    {
      cycleNumber, candidates, records, promotions, retirements := 0, map[], {}, [], [];
    }

    method NextCycle()
      requires Valid()
      modifies this`cycleNumber
      ensures Valid() && View() == old(View()).(cycle := old(cycleNumber) + 1)
    {
      cycleNumber := cycleNumber + 1;
    }

    method AddCandidate(name: string)
      requires Valid()
      modifies this`candidates, this`records
      ensures Valid() && View() == Added(old(View()), name)
      ensures fresh(records - old(records))
    {
      var c := new CandidateRecord(name);
      candidates, records := candidates[name := c], records + {c};
      assert View().table == Added(old(View()), name).table;
    }

    method AdvanceToValidation(name: string, metrics: Metrics)
      requires Valid()
      modifies records
      ensures Valid() && View() == Advanced(old(View()), name, metrics)
    {
      if name in candidates {
        candidates[name].phase := VALIDATION;
        candidates[name].metrics := metrics;
      }
      assert View().table == Advanced(old(View()), name, metrics).table;
    }

    method Promote(name: string, allocation: real)
      requires Valid()
      modifies this`promotions, records
      ensures Valid() && View() == PromotedState(old(View()), name, allocation)
    {
      if name in candidates {
        candidates[name].phase := PROMOTION;
        candidates[name].allocation := allocation;
        promotions := promotions + [Entry(name, cycleNumber)];
      }
      assert View().table == PromotedState(old(View()), name, allocation).table;
    }

    method Retire(name: string)
      requires Valid()
      modifies this`candidates, this`retirements
      ensures Valid() && View() == Retired(old(View()), name)
      ensures forall n :: n in old(candidates) && n != name ==> n in candidates && candidates[n] == old(candidates[n])
    {
      if name in candidates {
        retirements := retirements + [Entry(name, cycleNumber)];
        candidates := candidates - {name};
        assert View().table == Retired(old(View()), name).table;
      }
    }

    /** The records themselves: the caller may update them. */
    method GetPromotedStrategies() returns (promoted: seq<CandidateRecord>, ghost names: seq<string>)
      requires Valid()
      ensures forall c :: c in promoted ==> c.name in candidates && candidates[c.name] == c && c.phase == PROMOTION
      ensures forall n :: n in candidates && candidates[n].phase == PROMOTION ==> candidates[n] in promoted
      ensures ListsPromoted(names, View()) && |promoted| == |names|
      ensures forall i :: 0 <= i < |names| ==> names[i] in candidates && promoted[i] == candidates[names[i]]
    {
      promoted, names := [], [];
      var left := candidates.Keys;
      while left != {}
        invariant left <= candidates.Keys && Distinct(names) && |promoted| == |names|
        invariant forall c :: c in promoted ==> c.name in candidates && candidates[c.name] == c && c.phase == PROMOTION
        invariant forall n :: n in candidates.Keys - left && candidates[n].phase == PROMOTION ==>
                    candidates[n] in promoted
        invariant forall n :: n in names <==> n in candidates.Keys - left && candidates[n].phase == PROMOTION
        invariant forall i :: 0 <= i < |names| ==> names[i] in candidates && promoted[i] == candidates[names[i]]
      {
        var n :| n in left;
        left := left - {n};
        if candidates[n].phase == PROMOTION {
          promoted, names := promoted + [candidates[n]], names + [n];
        }
      }
    }
  }
}
