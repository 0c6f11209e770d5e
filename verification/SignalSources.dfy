/** How the pipeline turns what each of its five sources answered into an action and a confidence. */
module SignalSources {
  import opened Builtins
  import opened SignalFusion
  import opened Wrappers

  datatype Opinion = Opinion(action: Action, confidence: real)

  /** What each of the five sources has to say; a source that failed or has nothing to say is `None`. */
  datatype Sources = Sources(
    strategy: Option<Opinion>,
    regime: Option<Opinion>,
    sentiment: Option<Opinion>,
    prediction: Option<Opinion>,
    learning: Option<Opinion>)

  /** One entry of the strategy list; a direction other than BUY and SELL is HOLD here. */
  datatype StrategyEntry = StrategyEntry(direction: Action, score: real)

  /** `change` is `None` when the price change is no number. */
  datatype MarketReading = MarketReading(change: Option<real>, volumeRatio: real)

  datatype Accuracies = Accuracies(buy: real, sell: real)

  datatype TrackRecord = TrackRecord(winRate: real, decisions: int)

  /** The parsed answers; `None` when the call failed or answered with an error. */
  datatype Readings = Readings(
    strategies: Option<seq<StrategyEntry>>,
    market: Option<MarketReading>,
    recent: Option<seq<Action>>,
    accuracies: Option<Accuracies>,
    record: Option<TrackRecord>)

  function CountOf(directions: seq<Action>, a: Action): (n: nat)
    ensures n <= |directions|
  {
    if directions == [] then 0
    else CountOf(directions[..|directions| - 1], a) + if directions[|directions| - 1] == a then 1 else 0
  }

  function Directions(entries: seq<StrategyEntry>): (directions: seq<Action>)
    ensures |directions| == |entries|
  {
    if entries == [] then [] else Directions(entries[..|entries| - 1]) + [entries[|entries| - 1].direction]
  }

  function TotalScore(entries: seq<StrategyEntry>): real {
    if entries == [] then 0.0 else TotalScore(entries[..|entries| - 1]) + entries[|entries| - 1].score
  }

  function Majority(buy: nat, sell: nat): Action {
    if buy > sell then BUY else if sell > buy then SELL else HOLD
  }

  /** The action takes the side of the larger count, and no side when they are equal. */
  predicate Follows(a: Action, buy: nat, sell: nat) {
    (a == BUY <==> buy > sell) && (a == SELL <==> sell > buy)
  }

  function ConsensusBase(ratio: real): (base: real)
    ensures 0.40 <= base <= 0.90
  {
    if ratio >= 1.0 then 0.90 else if ratio >= 0.8 then 0.85 else if ratio >= 0.6 then 0.75
    else if ratio >= 0.4 then 0.55 else 0.40
  }

  /** `_fetch_strategy_signal` */
  function StrategyOpinion(entries: seq<StrategyEntry>): (o: Option<Opinion>)
    ensures o.Some? <==> entries != []
    ensures o.Some? ==> 0.30 <= o.value.confidence <= 0.95
    ensures o.Some? ==> Follows(o.value.action, CountOf(Directions(entries), BUY), CountOf(Directions(entries), SELL))
  {
    if entries == [] then None
    else
      var n := |entries| as real;
      var buy, sell := CountOf(Directions(entries), BUY) as real, CountOf(Directions(entries), SELL) as real;
      var base := ConsensusBase(Max(Max(buy, sell), n - buy - sell) / n);
      Some(Opinion(Majority(CountOf(Directions(entries), BUY), CountOf(Directions(entries), SELL)),
                   Min(0.95, Max(0.30, Times(base, 0.8 + 0.2 * (TotalScore(entries) / n))))))
  }

  /** `_fetch_market_regime` */
  function RegimeOpinion(m: MarketReading): (o: Opinion)
    ensures 0.30 <= o.confidence <= 0.80
    ensures o.action == BUY <==> m.change.Some? && m.change.value > 2.0 && m.volumeRatio > 1.5
    ensures o.action == SELL <==> m.change.Some? && m.change.value < -2.0 && m.volumeRatio > 1.5
  {
    match m.change
    case None => Opinion(HOLD, 0.30)
    case Some(x) =>
      var strength := Min(0.80, 0.5 + Abs(x) / 20.0);
      if x > 2.0 && m.volumeRatio > 1.5 then Opinion(BUY, strength)
      else if x < -2.0 && m.volumeRatio > 1.5 then Opinion(SELL, strength)
      else Opinion(HOLD, 0.40)
  }

  /** `_fetch_sentiment_signal` */
  function SentimentOpinion(recent: seq<Action>): (o: Option<Opinion>)
    ensures o.Some? <==> recent != []
    ensures o.Some? ==> 0.30 <= o.value.confidence <= 0.70
    ensures o.Some? ==> Follows(o.value.action, CountOf(recent, BUY), CountOf(recent, SELL))
  {
    if recent == [] then None
    else
      var buy, sell := CountOf(recent, BUY), CountOf(recent, SELL);
      Some(Opinion(Majority(buy, sell), Min(0.70, Max(0.30, Max(buy as real, sell as real) / |recent| as real))))
  }

  /** `_fetch_prediction_market_signal` */
  function PredictionOpinion(a: Accuracies): (o: Opinion)
    ensures 0.30 <= o.confidence <= 0.80
    ensures o.action == BUY <==> a.buy - a.sell > 0.1
    ensures o.action == SELL <==> a.sell - a.buy > 0.1
  {
    if a.buy > a.sell + 0.1 then Opinion(BUY, Min(0.80, Max(0.30, a.buy)))
    else if a.sell > a.buy + 0.1 then Opinion(SELL, Min(0.80, Max(0.30, a.sell)))
    else Opinion(HOLD, 0.40)
  }

  /** `_fetch_learning_engine_signal` */
  function LearningOpinion(t: TrackRecord): (o: Option<Opinion>)
    ensures o.Some? <==> t.decisions >= 3
    ensures o.Some? ==> 0.35 <= o.value.confidence <= 0.75
    ensures o.Some? ==> (o.value.action == BUY <==> t.winRate >= 0.65)
    ensures o.Some? ==> (o.value.action == SELL <==> t.winRate <= 0.35)
  {
    if t.decisions < 3 then None
    else if t.winRate >= 0.65 then Some(Opinion(BUY, Min(0.75, Max(0.40, t.winRate * 0.9))))
    else if t.winRate <= 0.35 then Some(Opinion(SELL, Min(0.75, Max(0.40, (1.0 - t.winRate) * 0.9))))
    else Some(Opinion(HOLD, 0.35))
  }

  lemma {:induction false} OneMoreEntry(entries: seq<StrategyEntry>, i: nat, a: Action)
    requires i < |entries|
    ensures CountOf(Directions(entries[..i + 1]), a)
         == CountOf(Directions(entries[..i]), a) + if entries[i].direction == a then 1 else 0
    ensures TotalScore(entries[..i + 1]) == TotalScore(entries[..i]) + entries[i].score
  {
    assert entries[..i + 1][..i] == entries[..i];
    assert Directions(entries[..i + 1])[..i] == Directions(entries[..i]);
  }

  /** The counting loop of the strategy source. */
  method CountDirections(entries: seq<StrategyEntry>) returns (buy: nat, sell: nat, score: real)
    ensures buy == CountOf(Directions(entries), BUY) && sell == CountOf(Directions(entries), SELL)
    ensures score == TotalScore(entries)
  {
    buy, sell, score := 0, 0, 0.0;
    for i := 0 to |entries|
      invariant buy == CountOf(Directions(entries[..i]), BUY) && sell == CountOf(Directions(entries[..i]), SELL)
      invariant score == TotalScore(entries[..i])
    {
      OneMoreEntry(entries, i, BUY);
      OneMoreEntry(entries, i, SELL);
      if entries[i].direction == BUY {
        buy := buy + 1;
      } else if entries[i].direction == SELL {
        sell := sell + 1;
      }
      score := score + entries[i].score;
    }
    assert entries[..|entries|] == entries;
  }

  method FetchStrategySignal(entries: seq<StrategyEntry>) returns (o: Option<Opinion>)
    ensures o == StrategyOpinion(entries)
  {
    if entries == [] {
      return None;
    }
    var buy, sell, score := CountDirections(entries);
    var n, b, s := |entries| as real, buy as real, sell as real;
    var base := ConsensusBase(Max(Max(b, s), n - b - s) / n);
    return Some(Opinion(Majority(buy, sell), Min(0.95, Max(0.30, Times(base, 0.8 + 0.2 * (score / n))))));
  }

  function SourcesOf(r: Readings): Sources {
    Sources(
      if r.strategies.Some? then StrategyOpinion(r.strategies.value) else None,
      if r.market.Some? then Some(RegimeOpinion(r.market.value)) else None,
      if r.recent.Some? then SentimentOpinion(r.recent.value) else None,
      if r.accuracies.Some? then Some(PredictionOpinion(r.accuracies.value)) else None,
      if r.record.Some? then LearningOpinion(r.record.value) else None)
  }

  // ---- How sure each source is ----

  /** The largest of the three counts. */
  function Leading(directions: seq<Action>): (n: nat)
    ensures n <= |directions|
    ensures forall a :: CountOf(directions, a) <= n
    ensures exists a :: CountOf(directions, a) == n
  {
    CountsSum(directions);
    var b, s, h := CountOf(directions, BUY), CountOf(directions, SELL), CountOf(directions, HOLD);
    if b >= s && b >= h then b else if s >= h then s else h
  }

  lemma {:induction false} CountsSum(directions: seq<Action>)
    ensures CountOf(directions, BUY) + CountOf(directions, SELL) + CountOf(directions, HOLD) == |directions|
  {
    if directions != [] {
      CountsSum(directions[..|directions| - 1]);
      var last := directions[|directions| - 1];
      assert last == BUY || last == SELL || last == HOLD;
    }
  }

  /**
   The strategies' confidence: a tier by how many fifths of them agree, all, four, three, two or fewer, scaled by their
   mean score, which moves it between four fifths of the tier and all of it, within [0.30, 0.95].
   */
  lemma {:induction false} StrategyConfidence(entries: seq<StrategyEntry>, mean: real)
    requires entries != [] && mean == TotalScore(entries) / |entries| as real
    ensures var n, k := |entries|, Leading(Directions(entries));
            var tier := if k == n then 0.90 else if 5 * k >= 4 * n then 0.85 else if 5 * k >= 3 * n then 0.75
                        else if 5 * k >= 2 * n then 0.55 else 0.40;
            StrategyOpinion(entries).value.confidence
              == Min(0.95, Max(0.30, Times(tier, 0.8 + 0.2 * mean)))
  {
    var n, k := |entries|, Leading(Directions(entries));
    CountsSum(Directions(entries));
    ShareAtLeast(k, n, 5);
    ShareAtLeast(k, n, 4);
    ShareAtLeast(k, n, 3);
    ShareAtLeast(k, n, 2);
  }

  /** The confidence of the other sources, where no bound cuts it off. */
  lemma OtherConfidences(m: MarketReading, recent: seq<Action>, a: Accuracies, t: TrackRecord)
    ensures RegimeOpinion(m).action != HOLD ==>
              var x := if m.change.value > 0.0 then m.change.value else -m.change.value;
              RegimeOpinion(m).confidence == if x <= 6.0 then 0.5 + x / 20.0 else 0.80
    ensures RegimeOpinion(m).action == HOLD ==> RegimeOpinion(m).confidence == if m.change.Some? then 0.40 else 0.30
    ensures PredictionOpinion(a).action == HOLD ==> PredictionOpinion(a).confidence == 0.40
    ensures PredictionOpinion(a).action == BUY && 0.30 <= a.buy <= 0.80 ==> PredictionOpinion(a).confidence == a.buy
    ensures PredictionOpinion(a).action == SELL && 0.30 <= a.sell <= 0.80 ==> PredictionOpinion(a).confidence == a.sell
    ensures t.decisions >= 3 && 0.35 < t.winRate < 0.65 ==> LearningOpinion(t).value.confidence == 0.35
    ensures t.decisions >= 3 && 0.65 <= t.winRate && 6.0 * t.winRate <= 5.0 ==>
              10.0 * LearningOpinion(t).value.confidence == 9.0 * t.winRate
    ensures t.decisions >= 3 && 6.0 * t.winRate > 5.0 ==> LearningOpinion(t).value.confidence == 0.75
    ensures recent != [] ==>
              var k := Max(CountOf(recent, BUY) as real, CountOf(recent, SELL) as real);
              var c := SentimentOpinion(recent).value.confidence;
              && (10.0 * k <= 3.0 * |recent| as real ==> c == 0.30)
              && (3.0 * |recent| as real <= 10.0 * k <= 7.0 * |recent| as real ==> Times(c, |recent| as real) == k)
              && (10.0 * k >= 7.0 * |recent| as real ==> c == 0.70)
  {
    if recent != [] {
      var k, n := Max(CountOf(recent, BUY) as real, CountOf(recent, SELL) as real), |recent| as real;
      ShareBetween(k, n);
    }
  }

  lemma ShareBetween(k: real, n: real)
    requires n > 0.0
    ensures Times(k / n, n) == k
    ensures k / n <= 0.30 <==> 10.0 * k <= 3.0 * n
    ensures k / n >= 0.70 <==> 10.0 * k >= 7.0 * n
  {
    var q := k / n;
    assert q * n == k;
    assert (q - 0.30) * n == k - 0.30 * n && (q - 0.70) * n == k - 0.70 * n;
    if q > 0.30 {
      assert (q - 0.30) * n > 0.0;
    } else {
      assert (q - 0.30) * n <= 0.0;
    }
    if q >= 0.70 {
      assert (q - 0.70) * n >= 0.0;
    } else {
      assert (q - 0.70) * n < 0.0;
    }
  }

  predicate AtLeast(opinion: Option<Opinion>, confidence: real) {
    opinion.Some? ==> opinion.value.confidence >= confidence
  }

  predicate AllConfident(s: Sources, confidence: real) {
    && AtLeast(s.strategy, confidence) && AtLeast(s.regime, confidence) && AtLeast(s.sentiment, confidence)
    && AtLeast(s.prediction, confidence) && AtLeast(s.learning, confidence)
  }

  /** Whatever the services answer, no source speaks with a confidence below 0.30. */
  lemma SourcesAreConfident(r: Readings)
    ensures AllConfident(SourcesOf(r), 0.30)
  {
  }
}
