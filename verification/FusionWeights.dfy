/** What the weights of the sources do to the fused signal, over sums of weights and confidences. */
module FusionWeights {
  import opened Builtins
  import opened Wrappers
  import opened SignalFusion
  import FusionTheorems

  // ---- The tally, over the weights as they are configured ----

  /** The configured weights of the sources, added up; a source that is not configured weighs 0.10. */
  function WeightSum(votes: seq<Vote>, w: map<string, real>): real {
    if votes == [] then 0.0
    else
      var v := votes[|votes| - 1];
      WeightSum(votes[..|votes| - 1], w) + (if v.source in w then w[v.source] else 0.10)
  }

  /** The weights times the confidences of the sources that vote for `a`. */
  function SupportFor(votes: seq<Vote>, w: map<string, real>, a: Action): real {
    if votes == [] then 0.0
    else
      var v := votes[|votes| - 1];
      SupportFor(votes[..|votes| - 1], w, a)
      + (if v.action != a then 0.0 else (if v.source in w then w[v.source] else 0.10) * v.confidence)
  }

  /** How many sources vote for `a`. */
  function VotersFor(votes: seq<Vote>, a: Action): (n: nat)
    ensures n <= |votes|
  {
    if votes == [] then 0
    else VotersFor(votes[..|votes| - 1], a) + if votes[|votes| - 1].action == a then 1 else 0
  }

  /** Their confidences, added up. */
  function ConfidenceFor(votes: seq<Vote>, a: Action): real {
    if votes == [] then 0.0
    else
      var v := votes[|votes| - 1];
      ConfidenceFor(votes[..|votes| - 1], a) + if v.action == a then v.confidence else 0.0
  }

  lemma {:induction false} TotalsAreSums(votes: seq<Vote>, w: map<string, real>, a: Action)
    ensures Total(votes, w, Weight) == WeightSum(votes, w)
    ensures Total(votes, w, Score(a)) == SupportFor(votes, w, a)
    ensures Total(votes, w, Count(a)) == VotersFor(votes, a) as real
    ensures Total(votes, w, Confidence(a)) == ConfidenceFor(votes, a)
  {
    if votes != [] {
      TotalsAreSums(votes[..|votes| - 1], w, a);
    }
  }

  /** What a score is a share of: the total weight, unless it is not positive. */
  function Scale(votes: seq<Vote>, w: map<string, real>): (s: real)
    ensures s > 0.0
  {
    if WeightSum(votes, w) > 0.0 then WeightSum(votes, w) else 1.0
  }

  lemma NormalizedTimesWeight(score: real, weight: real)
    ensures Times(Normalized(score, weight), if weight > 0.0 then weight else 1.0) == score
  {
  }

  /** A score times the total weight is the support of its action. */
  lemma {:induction false} ScoreIsShareOfWeight(votes: seq<Vote>, w: map<string, real>, a: Action)
    ensures Times(ScoreOf(TallyOf(votes, w), a), Scale(votes, w)) == SupportFor(votes, w, a)
  {
    TotalsAreSums(votes, w, a);
    NormalizedTimesWeight(Total(votes, w, Score(a)), WeightSum(votes, w));
  }

  lemma {:induction false} SharesCompare(x: real, y: real, weight: real, margin: real)
    requires weight > 0.0
    ensures x - y >= margin <==> Times(x, weight) - Times(y, weight) >= Times(margin, weight)
    ensures x > y <==> Times(x, weight) > Times(y, weight)
    ensures x <= 0.0 <==> Times(x, weight) <= 0.0
  {
    assert Times(x, weight) - Times(y, weight) - Times(margin, weight) == (x - y - margin) * weight;
    assert Times(x, weight) - Times(y, weight) == (x - y) * weight;
    TimesKeepsSign(x - y - margin, weight);
    TimesKeepsSign(x - y, weight);
    TimesKeepsSign(x, weight);
  }

  /** `a` is ahead of `b` by a tenth of the total weight, or `b` has no support. */
  predicate Beats(votes: seq<Vote>, w: map<string, real>, a: Action, b: Action) {
    || SupportFor(votes, w, b) <= 0.0
    || SupportFor(votes, w, a) - SupportFor(votes, w, b) >= Times(0.10, Scale(votes, w))
  }

  predicate Ahead(votes: seq<Vote>, w: map<string, real>, a: Action, b: Action) {
    SupportFor(votes, w, a) > SupportFor(votes, w, b)
  }

  lemma {:induction false} ScoresCompare(votes: seq<Vote>, w: map<string, real>, a: Action, b: Action)
    ensures var t := TallyOf(votes, w);
            && (ScoreOf(t, a) > ScoreOf(t, b) <==> Ahead(votes, w, a, b))
            && (ScoreOf(t, b) <= 0.0 || ScoreOf(t, a) - ScoreOf(t, b) >= 0.10 <==> Beats(votes, w, a, b))
  {
    var t := TallyOf(votes, w);
    ScoreIsShareOfWeight(votes, w, a);
    ScoreIsShareOfWeight(votes, w, b);
    SharesCompare(ScoreOf(t, a), ScoreOf(t, b), Scale(votes, w), 0.10);
    SharesCompare(ScoreOf(t, b), 0.0, Scale(votes, w), 0.0);
  }

  /**
   The answer to any sources: BUY exactly when no other action has more support and BUY beats both by a tenth of the
   total weight, where they have any support; SELL likewise, except that BUY comes first when level.
   */
  lemma {:induction false} FusedActionIff(votes: seq<Vote>, w: map<string, real>)
    requires votes != []
    ensures var action := Fuse(votes, w, WEIGHTED_MAJORITY).action;
            && (action == BUY <==>
                  && !Ahead(votes, w, SELL, BUY) && !Ahead(votes, w, HOLD, BUY)
                  && Beats(votes, w, BUY, SELL) && Beats(votes, w, BUY, HOLD))
            && (action == SELL <==>
                  && Ahead(votes, w, SELL, BUY) && !Ahead(votes, w, HOLD, SELL)
                  && Beats(votes, w, SELL, BUY) && Beats(votes, w, SELL, HOLD))
  {
    FusionTheorems.ResolveCases(TallyOf(votes, w));
    assert forall t: Tally :: ScoreOf(t, BUY) == t.buy && ScoreOf(t, SELL) == t.sell && ScoreOf(t, HOLD) == t.hold;
    ScoresCompare(votes, w, BUY, SELL);
    ScoresCompare(votes, w, BUY, HOLD);
    ScoresCompare(votes, w, SELL, BUY);
    ScoresCompare(votes, w, SELL, HOLD);
    ScoresCompare(votes, w, HOLD, BUY);
    ScoresCompare(votes, w, HOLD, SELL);
  }

  /** Conservative resolution acts on the same leader, if it has at least 60% of the total weight behind it. */
  lemma {:induction false} ConservativeActsIff(votes: seq<Vote>, w: map<string, real>)
    requires votes != []
    ensures var action := Fuse(votes, w, CONSERVATIVE).action;
            && (action == BUY <==>
                  && !Ahead(votes, w, SELL, BUY) && !Ahead(votes, w, HOLD, BUY)
                  && SupportFor(votes, w, BUY) >= Times(0.60, Scale(votes, w)))
            && (action == SELL <==>
                  && Ahead(votes, w, SELL, BUY) && !Ahead(votes, w, HOLD, SELL)
                  && SupportFor(votes, w, SELL) >= Times(0.60, Scale(votes, w)))
  {
    var t := TallyOf(votes, w);
    assert ScoreOf(t, BUY) == t.buy && ScoreOf(t, SELL) == t.sell && ScoreOf(t, HOLD) == t.hold;
    ScoresCompare(votes, w, SELL, BUY);
    ScoresCompare(votes, w, HOLD, BUY);
    ScoresCompare(votes, w, HOLD, SELL);
    ScoreIsShareOfWeight(votes, w, BUY);
    ScoreIsShareOfWeight(votes, w, SELL);
    SharesCompare(t.buy, 0.0, Scale(votes, w), 0.60);
    SharesCompare(t.sell, 0.0, Scale(votes, w), 0.60);
  }

  /** Highest confidence follows a source that no other is surer than. */
  lemma {:induction false} SurestSourceIsFollowed(votes: seq<Vote>, w: map<string, real>) returns (v: Vote)
    requires votes != []
    ensures v in votes && v.action == Fuse(votes, w, HIGHEST_CONFIDENCE).action
    ensures forall u :: u in votes ==> u.confidence <= v.confidence
  {
    v := MostConfident(votes);
  }

  // ---- The configured weights ----

  /** Without an override, or with an empty one, the five sources weigh this; any other override replaces them all. */
  lemma NoOverrideMeansDefaults(w: map<string, real>)
    ensures Effective(None) == Effective(Some(map[]))
         == map["strategy_consensus" := 0.40, "sentiment" := 0.15, "prediction_market" := 0.20,
                "regime_detection" := 0.15, "learning_engine" := 0.10]
    ensures w != map[] ==> Effective(Some(w)) == w
  {
  }

  lemma {:induction false} SumsOfTwo(x: Vote, y: Vote, w: map<string, real>, a: Action)
    ensures WeightSum([x, y], w) == WeightOf(w, x.source) + WeightOf(w, y.source)
    ensures SupportFor([x, y], w, a) == (if x.action == a then Times(WeightOf(w, x.source), x.confidence) else 0.0)
                                        + (if y.action == a then Times(WeightOf(w, y.source), y.confidence) else 0.0)
  {
    assert [x, y][..1] == [x] && [x][..0] == [];
    assert WeightSum([x], w) == WeightOf(w, x.source);
    assert SupportFor([x], w, a) == if x.action == a then Times(WeightOf(w, x.source), x.confidence) else 0.0;
  }

  /**
   Two sources that disagree: the one whose weight times confidence leads by a tenth of the two weights together is
   followed, and without such a lead the answer is HOLD.
   */
  lemma {:induction false} TwoSources(x: Vote, y: Vote, w: map<string, real>)
    requires x.action != y.action && x.confidence > 0.0 && y.confidence > 0.0
    requires x.source in w && y.source in w && w[x.source] > 0.0 && w[y.source] > 0.0
    ensures var action := Fuse([x, y], w, WEIGHTED_MAJORITY).action;
            var lead := Times(w[x.source], x.confidence) - Times(w[y.source], y.confidence);
            var margin := Times(0.10, w[x.source] + w[y.source]);
            action == if lead >= margin then x.action else if -lead >= margin then y.action else HOLD
  {
    SumsOfTwo(x, y, w, BUY);
    SumsOfTwo(x, y, w, SELL);
    SumsOfTwo(x, y, w, HOLD);
    FusedActionIff([x, y], w);
    TimesKeepsSign(w[x.source], x.confidence);
    TimesKeepsSign(w[y.source], y.confidence);
    TimesKeepsSign(0.10, w[x.source] + w[y.source]);
  }

  /** With the default weights, a strategy consensus of 0.60 to SELL overrides a sentiment of 0.85 to BUY. */
  lemma {:induction false} ConsensusOutweighsSentiment()
    ensures Fuse([Vote("strategy_consensus", SELL, 0.60), Vote("sentiment", BUY, 0.85)], Effective(None),
                 WEIGHTED_MAJORITY).action == SELL
  {
    TwoSources(Vote("strategy_consensus", SELL, 0.60), Vote("sentiment", BUY, 0.85), Effective(None));
  }

  // ---- The fused confidence ----

  lemma {:induction false} NoVotersNoSupport(votes: seq<Vote>, w: map<string, real>, a: Action)
    requires VotersFor(votes, a) == 0
    ensures SupportFor(votes, w, a) == 0.0
  {
    if votes != [] {
      NoVotersNoSupport(votes[..|votes| - 1], w, a);
    }
  }

  /**
   For any sources and any strategy: agreement is the share of sources that vote for the answer; confidence is halfway
   between the answer's share of the weight and the mean confidence of those sources, plus 0.10 if four fifths of the
   sources agree, 0.05 if three fifths do, within [0.30, 0.95]; and 0.30 if no source votes for the answer.
   */
  lemma {:induction false} FusedConfidenceMeans(votes: seq<Vote>, w: map<string, real>, strategy: Strategy)
    requires votes != []
    ensures var f, n := Fuse(votes, w, strategy), |votes|;
            var k := VotersFor(votes, f.action);
            && f.agreement == k as real / n as real
            && (k == 0 ==> f.confidence == 0.30)
            && (k > 0 ==>
                  var share, mean := SupportFor(votes, w, f.action) / Scale(votes, w),
                                     ConfidenceFor(votes, f.action) / k as real;
                  var bonus := if 5 * k >= 4 * n then 0.10 else if 5 * k >= 3 * n then 0.05 else 0.0;
                  f.confidence == Min(0.95, Max(0.30, (share + mean) / 2.0 + bonus)))
  {
    var f, n := Fuse(votes, w, strategy), |votes|;
    var k := VotersFor(votes, f.action);
    TotalsAreSums(votes, w, f.action);
    ScoreIsShareOfWeight(votes, w, f.action);
    ShareAtLeast(k, n, 4);
    ShareAtLeast(k, n, 3);
    if k == 0 {
      NoVotersNoSupport(votes, w, f.action);
    }
  }
}
