/** The signal fusion engine: confidence-weighted voting over signals from several sources. */
module SignalFusion {
  import opened Builtins
  import opened Wrappers

  datatype Action = BUY | SELL | HOLD

  datatype Strategy = WEIGHTED_MAJORITY | HIGHEST_CONFIDENCE | CONSERVATIVE

  /** What a source says; its weight is assigned by the engine. */
  datatype Vote = Vote(source: string, action: Action, confidence: real)

  datatype FusedSignal = FusedSignal(action: Action, confidence: real, agreement: real)

  const DEFAULT_SOURCE_WEIGHTS: map<string, real> := map[
    "strategy_consensus" := 0.40,
    "sentiment" := 0.15,
    "prediction_market" := 0.20,
    "regime_detection" := 0.15,
    "learning_engine" := 0.10]

  function WeightOf(weights: map<string, real>, source: string): real {
    if source in weights then weights[source] else 0.10
  }

  /** No override, or an empty one, means the defaults. */
  function Effective(weights: Option<map<string, real>>): map<string, real> {
    if weights.None? || weights.value == map[] then DEFAULT_SOURCE_WEIGHTS else weights.value
  }

  // ---- Sums over votes ----

  /** The four sums the engine takes over the sources. */
  datatype Measure = Score(action: Action) | Weight | Count(action: Action) | Confidence(action: Action)

  function Part(v: Vote, w: map<string, real>, m: Measure): real {
    match m
    case Score(a) => if v.action == a then Times(WeightOf(w, v.source), v.confidence) else 0.0
    case Weight => WeightOf(w, v.source)
    case Count(a) => if v.action == a then 1.0 else 0.0
    case Confidence(a) => if v.action == a then v.confidence else 0.0
  }

  function Total(votes: seq<Vote>, w: map<string, real>, m: Measure): real {
    if votes == [] then 0.0 else Total(votes[..|votes| - 1], w, m) + Part(votes[|votes| - 1], w, m)
  }

  // ---- Resolution ----

  datatype Tally = Tally(buy: real, sell: real, hold: real)

  function ScoreOf(t: Tally, a: Action): real {
    match a case BUY => t.buy case SELL => t.sell case HOLD => t.hold
  }

  /** The first of the highest scores, in the order BUY, SELL, HOLD: the head of the stable descending sort. */
  function Top(t: Tally): (a: Action)
    ensures forall other :: ScoreOf(t, other) <= ScoreOf(t, a)
  {
    if t.buy >= t.sell && t.buy >= t.hold then BUY else if t.sell >= t.hold then SELL else HOLD
  }

  /** The second score of that sort. */
  function RunnerUp(t: Tally): (r: real)
    ensures r <= ScoreOf(t, Top(t))
    ensures forall a :: a != Top(t) ==> ScoreOf(t, a) <= r
    ensures exists a :: a != Top(t) && ScoreOf(t, a) == r
  {
    match Top(t)
    case BUY => assert ScoreOf(t, SELL) == t.sell && ScoreOf(t, HOLD) == t.hold; Max(t.sell, t.hold)
    case SELL => assert ScoreOf(t, BUY) == t.buy && ScoreOf(t, HOLD) == t.hold; Max(t.buy, t.hold)
    case HOLD => assert ScoreOf(t, BUY) == t.buy && ScoreOf(t, SELL) == t.sell; Max(t.buy, t.sell)
  }

  /**
   `_resolve_weighted_majority`. A result other than HOLD beats every rival that has a positive score by at least 0.10.
   */
  function ResolveWeightedMajority(t: Tally): (r: Action)
    ensures r != HOLD ==> forall a :: a != r ==> ScoreOf(t, a) <= 0.0 || ScoreOf(t, r) - ScoreOf(t, a) >= 0.10
    ensures r == HOLD || r == Top(t)
  {
    var top := Top(t);
    assert ScoreOf(t, BUY) == t.buy && ScoreOf(t, SELL) == t.sell && ScoreOf(t, HOLD) == t.hold;
    if RunnerUp(t) > 0.0 && ScoreOf(t, top) - RunnerUp(t) < 0.10 then HOLD else top
  }

  /** `_resolve_conservative` */
  function ResolveConservative(t: Tally): (r: Action)
    ensures r != HOLD ==> ScoreOf(t, r) >= 0.60 && r == Top(t)
  {
    if ScoreOf(t, Top(t)) >= 0.60 then Top(t) else HOLD
  }

  /** The first vote of the highest confidence. */
  function MostConfident(votes: seq<Vote>): (v: Vote)
    requires votes != []
    ensures v in votes && forall u :: u in votes ==> u.confidence <= v.confidence
  {
    if |votes| == 1 then votes[0]
    else
      var best := MostConfident(votes[..|votes| - 1]);
      var last := votes[|votes| - 1];
      assert forall u :: u in votes ==> u in votes[..|votes| - 1] || u == last;
      if last.confidence > best.confidence then last else best
  }

  function Normalized(score: real, weight: real): real {
    if weight > 0.0 then score / weight else score
  }

  function TallyOf(votes: seq<Vote>, w: map<string, real>): Tally {
    var weight := Total(votes, w, Weight);
    Tally(Normalized(Total(votes, w, Score(BUY)), weight), Normalized(Total(votes, w, Score(SELL)), weight),
          Normalized(Total(votes, w, Score(HOLD)), weight))
  }

  function Resolve(votes: seq<Vote>, t: Tally, strategy: Strategy): Action
    requires votes != []
  {
    match strategy
    case WEIGHTED_MAJORITY => ResolveWeightedMajority(t)
    case HIGHEST_CONFIDENCE => MostConfident(votes).action
    case CONSERVATIVE => ResolveConservative(t)
  }

  /** `_calculate_fused_confidence`: always within [0.30, 0.95]. */
  function FusedConfidence(base: real, agreement: real, agreeing: real, confidences: real): (c: real)
    ensures 0.30 <= c <= 0.95
  {
    var bonus := if agreement >= 0.8 then 0.10 else if agreement >= 0.6 then 0.05 else 0.0;
    var average := if agreeing > 0.0 then confidences / agreeing else 0.30;
    Min(0.95, Max(0.30, base * 0.5 + average * 0.5 + bonus))
  }

  /** `fuse_signals` */
  function Fuse(votes: seq<Vote>, w: map<string, real>, strategy: Strategy): FusedSignal {
    if votes == [] then FusedSignal(HOLD, 0.30, 0.0)
    else
      var t := TallyOf(votes, w);
      var action := Resolve(votes, t, strategy);
      var agreeing := Total(votes, w, Count(action));
      var agreement := agreeing / |votes| as real;
      FusedSignal(action,
                  FusedConfidence(ScoreOf(t, action), agreement, agreeing, Total(votes, w, Confidence(action))),
                  agreement)
  }

  class SourceSignal {
    const source: string
    const action: Action
    const confidence: real
    var weight: real

    constructor (source: string, action: Action, confidence: real)
      ensures this.source == source && this.action == action && this.confidence == confidence && weight == 1.0
    {
      this.source, this.action, this.confidence, weight := source, action, confidence, 1.0;
    }

    function View(): Vote {
      Vote(source, action, confidence)
    }
  }

  function Votes(signals: seq<SourceSignal>): (votes: seq<Vote>)
    ensures |votes| == |signals|
    ensures forall i :: 0 <= i < |signals| ==> votes[i] == signals[i].View()
  {
    seq(|signals|, i requires 0 <= i < |signals| => signals[i].View())
  }

  /** The engine overwrites the weight of every signal it is given, even when one object occurs twice. */
  method ApplyWeights(signals: seq<SourceSignal>, weights: map<string, real>)
    modifies signals
    ensures forall s :: s in signals ==> s.weight == if s.source in weights then weights[s.source] else 0.10
  {
    for i := 0 to |signals|
      invariant forall j :: 0 <= j < i ==> signals[j].weight == WeightOf(weights, signals[j].source)
    {
      signals[i].weight := WeightOf(weights, signals[i].source);
    }
  }

  /** The weighted vote tally, normalized by the total weight. */
  method TallyVotes(signals: seq<SourceSignal>, ghost weights: map<string, real>) returns (tally: Tally)
    requires forall s :: s in signals ==> s.weight == WeightOf(weights, s.source)
    ensures tally == TallyOf(Votes(signals), weights)
  {
    ghost var votes := Votes(signals);
    var scores: map<Action, real> := map[BUY := 0.0, SELL := 0.0, HOLD := 0.0];
    var totalWeight := 0.0;
    for i := 0 to |signals|
      invariant scores == map[BUY := Total(votes[..i], weights, Score(BUY)),
                              SELL := Total(votes[..i], weights, Score(SELL)),
                              HOLD := Total(votes[..i], weights, Score(HOLD))]
      invariant totalWeight == Total(votes[..i], weights, Weight)
    {
      assert votes[..i + 1][..i] == votes[..i];
      var sig := signals[i];
      assert sig.weight == WeightOf(weights, sig.source);
      assert sig.action == BUY || sig.action == SELL || sig.action == HOLD;
      scores := scores[sig.action := scores[sig.action] + Times(sig.weight, sig.confidence)];
      totalWeight := totalWeight + sig.weight;
    }
    assert votes[..|signals|] == votes;
    return Tally(Normalized(scores[BUY], totalWeight), Normalized(scores[SELL], totalWeight),
                 Normalized(scores[HOLD], totalWeight));
  }

  method Agreement(signals: seq<SourceSignal>, action: Action, ghost weights: map<string, real>)
    returns (agreeing: real, confidences: real)
    ensures agreeing == Total(Votes(signals), weights, Count(action))
    ensures confidences == Total(Votes(signals), weights, Confidence(action))
  {
    ghost var votes := Votes(signals);
    agreeing, confidences := 0.0, 0.0;
    for i := 0 to |signals|
      invariant agreeing == Total(votes[..i], weights, Count(action))
      invariant confidences == Total(votes[..i], weights, Confidence(action))
    {
      assert votes[..i + 1][..i] == votes[..i];
      if signals[i].action == action {
        agreeing, confidences := agreeing + 1.0, confidences + signals[i].confidence;
      }
    }
    assert votes[..|signals|] == votes;
  }

  method FuseSignals(signals: seq<SourceSignal>, override: Option<map<string, real>>, strategy: Strategy)
    returns (fused: FusedSignal)
    modifies signals
    ensures fused == Fuse(Votes(signals), Effective(override), strategy)
    ensures var w := Effective(override);
            forall s :: s in signals ==> s.weight == if s.source in w then w[s.source] else 0.10
  {
    if signals == [] {
      return FusedSignal(HOLD, 0.30, 0.0);
    }
    var weights := Effective(override);
    ApplyWeights(signals, weights);
    var tally := TallyVotes(signals, weights);
    var action := Resolve(Votes(signals), tally, strategy);
    var agreeing, confidences := Agreement(signals, action, weights);
    var agreement := agreeing / |signals| as real;
    return FusedSignal(action, FusedConfidence(ScoreOf(tally, action), agreement, agreeing, confidences), agreement);
  }
}
