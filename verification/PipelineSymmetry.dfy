/** The pipeline has no preference for a side: a mirrored market gives the mirrored decision. */
module PipelineSymmetry {
  import opened Builtins
  import opened Wrappers
  import opened SignalFusion
  import opened SignalSources
  import opened RiskManagement
  import opened DecisionModels
  import opened Coordinator
  import opened FusionTheorems

  // ---- Mirrored answers of the services ----

  function MirrorEntries(entries: seq<StrategyEntry>): (r: seq<StrategyEntry>)
    ensures |r| == |entries|
  {
    if entries == [] then []
    else
      var last := entries[|entries| - 1];
      MirrorEntries(entries[..|entries| - 1]) + [last.(direction := Swap(last.direction))]
  }

  function MirrorActions(actions: seq<Action>): (r: seq<Action>)
    ensures |r| == |actions|
  {
    if actions == [] then [] else MirrorActions(actions[..|actions| - 1]) + [Swap(actions[|actions| - 1])]
  }

  function MirrorChange(change: Option<real>): Option<real> {
    match change case Some(x) => Some(-x) case None => None
  }

  /** The same answers with BUY for SELL, rises for falls and wins for losses. */
  function Mirror(r: Readings): Readings {
    Readings(
      match r.strategies case Some(entries) => Some(MirrorEntries(entries)) case None => None,
      match r.market case Some(m) => Some(m.(change := MirrorChange(m.change))) case None => None,
      match r.recent case Some(actions) => Some(MirrorActions(actions)) case None => None,
      match r.accuracies case Some(a) => Some(Accuracies(a.sell, a.buy)) case None => None,
      match r.record case Some(t) => Some(t.(winRate := 1.0 - t.winRate)) case None => None)
  }

  function MirrorMarket(m: Market): Market {
    m.(priceChange := MirrorChange(m.priceChange))
  }

  function SwapOpinion(o: Option<Opinion>): Option<Opinion> {
    match o case Some(x) => Some(x.(action := Swap(x.action))) case None => None
  }

  function SwapSources(s: Sources): Sources {
    Sources(SwapOpinion(s.strategy), SwapOpinion(s.regime), SwapOpinion(s.sentiment), SwapOpinion(s.prediction),
            SwapOpinion(s.learning))
  }

  function SwapFused(f: FusedSignal): FusedSignal {
    f.(action := Swap(f.action))
  }

  // ---- The sources ----

  lemma {:induction false} CountOfMirrored(actions: seq<Action>, a: Action)
    ensures CountOf(MirrorActions(actions), Swap(a)) == CountOf(actions, a)
  {
    if actions != [] {
      CountOfMirrored(actions[..|actions| - 1], a);
      assert MirrorActions(actions)[..|actions| - 1] == MirrorActions(actions[..|actions| - 1]);
    }
  }

  lemma {:induction false} DirectionsOfMirrored(entries: seq<StrategyEntry>)
    ensures Directions(MirrorEntries(entries)) == MirrorActions(Directions(entries))
    ensures TotalScore(MirrorEntries(entries)) == TotalScore(entries)
  {
    if entries != [] {
      var init := entries[..|entries| - 1];
      DirectionsOfMirrored(init);
      assert MirrorEntries(entries)[..|entries| - 1] == MirrorEntries(init);
      assert Directions(entries)[..|entries| - 1] == Directions(init);
    }
  }

  lemma {:induction false} StrategyMirrored(entries: seq<StrategyEntry>)
    ensures StrategyOpinion(MirrorEntries(entries)) == SwapOpinion(StrategyOpinion(entries))
  {
    DirectionsOfMirrored(entries);
    CountOfMirrored(Directions(entries), BUY);
    CountOfMirrored(Directions(entries), SELL);
  }

  lemma {:induction false} SentimentMirrored(recent: seq<Action>)
    ensures SentimentOpinion(MirrorActions(recent)) == SwapOpinion(SentimentOpinion(recent))
  {
    CountOfMirrored(recent, BUY);
    CountOfMirrored(recent, SELL);
  }

  lemma RegimeMirrored(m: MarketReading)
    ensures Some(RegimeOpinion(m.(change := MirrorChange(m.change)))) == SwapOpinion(Some(RegimeOpinion(m)))
  {
  }

  lemma PredictionMirrored(a: Accuracies)
    ensures Some(PredictionOpinion(Accuracies(a.sell, a.buy))) == SwapOpinion(Some(PredictionOpinion(a)))
  {
  }

  lemma LearningMirrored(t: TrackRecord)
    ensures LearningOpinion(t.(winRate := 1.0 - t.winRate)) == SwapOpinion(LearningOpinion(t))
  {
  }

  lemma {:induction false} SourcesMirrored(r: Readings)
    ensures SourcesOf(Mirror(r)) == SwapSources(SourcesOf(r))
  {
    var s, t := SourcesOf(r), SourcesOf(Mirror(r));
    assert t.strategy == SwapOpinion(s.strategy) by {
      if r.strategies.Some? {
        StrategyMirrored(r.strategies.value);
      }
    }
    assert t.regime == SwapOpinion(s.regime) by {
      if r.market.Some? {
        RegimeMirrored(r.market.value);
      }
    }
    assert t.sentiment == SwapOpinion(s.sentiment) by {
      if r.recent.Some? {
        SentimentMirrored(r.recent.value);
      }
    }
    assert t.prediction == SwapOpinion(s.prediction) by {
      if r.accuracies.Some? {
        PredictionMirrored(r.accuracies.value);
      }
    }
    assert t.learning == SwapOpinion(s.learning) by {
      if r.record.Some? {
        LearningMirrored(r.record.value);
      }
    }
  }

  // ---- Fusion ----

  lemma {:induction false} SwapVotesOfConcat(a: seq<Vote>, b: seq<Vote>)
    ensures SwapVotes(a + b) == SwapVotes(a) + SwapVotes(b)
  {
    if b == [] {
      assert a + b == a;
    } else {
      assert (a + b)[..|a + b| - 1] == a + b[..|b| - 1];
      SwapVotesOfConcat(a, b[..|b| - 1]);
    }
  }

  lemma {:induction false} SwapVotesOfFive(a: seq<Vote>, b: seq<Vote>, c: seq<Vote>, d: seq<Vote>, e: seq<Vote>)
    ensures SwapVotes(a + b + c + d + e) == SwapVotes(a) + SwapVotes(b) + SwapVotes(c) + SwapVotes(d) + SwapVotes(e)
  {
    SwapVotesOfConcat(a, b);
    SwapVotesOfConcat(a + b, c);
    SwapVotesOfConcat(a + b + c, d);
    SwapVotesOfConcat(a + b + c + d, e);
  }

  lemma {:induction false} VoteMirrored(source: string, o: Option<Opinion>)
    ensures VoteOf(source, SwapOpinion(o)) == SwapVotes(VoteOf(source, o))
  {
    if o.Some? {
      assert VoteOf(source, o)[..0] == [];
    }
  }

  lemma {:induction false} VotesMirrored(s: Sources)
    ensures VotesOf(SwapSources(s)) == SwapVotes(VotesOf(s))
  {
    SwapVotesOfFive(VoteOf("strategy_consensus", s.strategy), VoteOf("regime_detection", s.regime),
                    VoteOf("sentiment", s.sentiment), VoteOf("prediction_market", s.prediction),
                    VoteOf("learning_engine", s.learning));
    VoteMirrored("strategy_consensus", s.strategy);
    VoteMirrored("regime_detection", s.regime);
    VoteMirrored("sentiment", s.sentiment);
    VoteMirrored("prediction_market", s.prediction);
    VoteMirrored("learning_engine", s.learning);
  }

  lemma {:induction false} FusedMirrored(s: Sources)
    requires AllConfident(s, 0.30)
    ensures FusedFor(SwapSources(s)) == SwapFused(FusedFor(s))
  {
    VotesMirrored(s);
    VotesOfAtLeast(s, 0.30);
    forall v | v in VotesOf(s)
      ensures WeightOf(DEFAULT_SOURCE_WEIGHTS, v.source) > 0.0
    {
      DefaultWeightsArePositive(v.source);
    }
    FusionIsSymmetric(VotesOf(s), DEFAULT_SOURCE_WEIGHTS);
  }

  // ---- The decision ----

  /** BUY and SELL score alike, and so do a rise and a fall. */
  lemma ScoreIgnoresSide(action: Action, confidence: real, agreement: real, market: Market)
    ensures FactorsOf(Swap(action), confidence, agreement, MirrorMarket(market))
         == FactorsOf(action, confidence, agreement, market)
  {
  }

  /**
   Whatever the services answer: the mirrored answers give the opposite action with the same confidence and agreement,
   the same opportunity score and tier, and the same risk verdict and position size.
   */
  lemma {:induction false} MirroredMarketMirroredDecision(r: Readings, market: Market, risk: Risk, c: RiskConfig,
                                                          symbol: string, now: real)
    ensures var f, g := FusedFor(SourcesOf(r)), FusedFor(SourcesOf(Mirror(r)));
            && g == SwapFused(f)
            && Points(FactorsOf(g.action, g.confidence, g.agreement, MirrorMarket(market)))
               == Points(FactorsOf(f.action, f.confidence, f.agreement, market))
            && Check(risk, c, symbol, g.action, g.confidence, now)
               == Check(risk, c, symbol, f.action, f.confidence, now)
  {
    SourcesMirrored(r);
    SourcesAreConfident(r);
    FusedMirrored(SourcesOf(r));
    var f := FusedFor(SourcesOf(r));
    ScoreIgnoresSide(f.action, f.confidence, f.agreement, market);
  }
}
