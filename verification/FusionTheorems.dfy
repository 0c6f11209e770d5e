/** Symmetry, order and range of the fused signal. */
module FusionTheorems {
  import opened Builtins
  import opened Wrappers
  import opened SignalFusion

  // ---- Ties ----

  /**
   A tie of the two highest scores is documented to give HOLD. It does exactly when those scores are positive: when no
   source has any confidence, the engine answers BUY.
   */
  lemma {:induction false} TieGivesHoldIffPositive(t: Tally)
    requires ScoreOf(t, Top(t)) == RunnerUp(t)
    ensures ResolveWeightedMajority(t) == HOLD <==> RunnerUp(t) > 0.0
  {
    assert ScoreOf(t, BUY) == t.buy && ScoreOf(t, SELL) == t.sell && ScoreOf(t, HOLD) == t.hold;
  }

  /** One source that says SELL with no confidence at all is answered with BUY. */
  lemma {:induction false} NoConfidenceMeansBuy()
    ensures Fuse([Vote("sentiment", SELL, 0.0)], DEFAULT_SOURCE_WEIGHTS, WEIGHTED_MAJORITY).action == BUY
  {
    var votes, w := [Vote("sentiment", SELL, 0.0)], DEFAULT_SOURCE_WEIGHTS;
    assert votes[..0] == [];
    assert forall a :: Total(votes, w, Score(a)) == 0.0;
    assert TallyOf(votes, w) == Tally(0.0, 0.0, 0.0);
  }

  // ---- Order of sources ----

  lemma {:induction false} TotalOfConcat(a: seq<Vote>, b: seq<Vote>, w: map<string, real>, m: Measure)
    ensures Total(a + b, w, m) == Total(a, w, m) + Total(b, w, m)
  {
    if b == [] {
      assert a + b == a;
    } else {
      assert (a + b)[..|a + b| - 1] == a + b[..|b| - 1];
      TotalOfConcat(a, b[..|b| - 1], w, m);
    }
  }

  lemma {:induction false} WithoutOne(s: seq<Vote>, i: nat)
    requires i < |s|
    ensures multiset(s[..i] + s[i + 1..]) == multiset(s) - multiset{s[i]}
  {
    assert s == s[..i] + [s[i]] + s[i + 1..];
  }

  lemma {:induction false} TotalWithoutOne(s: seq<Vote>, i: nat, w: map<string, real>, m: Measure)
    requires i < |s|
    ensures Total(s, w, m) == Total(s[..i] + s[i + 1..], w, m) + Part(s[i], w, m)
  {
    var before, after := s[..i], s[i + 1..];
    assert s == before + [s[i]] + after && [s[i]][..0] == [];
    TotalOfConcat(before, after, w, m);
    TotalOfConcat(before, [s[i]], w, m);
    TotalOfConcat(before + [s[i]], after, w, m);
  }

  /** Two arrangements of the same votes, each with its copy of one vote taken out. */
  lemma {:induction false} TakeOneFromBoth(a: seq<Vote>, b: seq<Vote>) returns (i: nat)
    requires a != [] && multiset(a) == multiset(b)
    ensures i < |b| && b[i] == a[0] && multiset(a[..0] + a[1..]) == multiset(b[..i] + b[i + 1..])
  {
    assert a[0] in multiset(b);
    i :| 0 <= i < |b| && b[i] == a[0];
    WithoutOne(a, 0);
    WithoutOne(b, i);
  }

  lemma {:induction false} TotalOfPermutation(a: seq<Vote>, b: seq<Vote>, w: map<string, real>, m: Measure)
    requires multiset(a) == multiset(b)
    ensures Total(a, w, m) == Total(b, w, m)
  {
    if a == [] {
      assert |multiset(b)| == 0;
    } else {
      var i := TakeOneFromBoth(a, b);
      TotalWithoutOne(a, 0, w, m);
      TotalWithoutOne(b, i, w, m);
      TotalOfPermutation(a[..0] + a[1..], b[..i] + b[i + 1..], w, m);
    }
  }

  lemma {:induction false} TallyOfPermutation(a: seq<Vote>, b: seq<Vote>, w: map<string, real>)
    requires multiset(a) == multiset(b)
    ensures TallyOf(a, w) == TallyOf(b, w)
  {
    TotalOfPermutation(a, b, w, Weight);
    TotalOfPermutation(a, b, w, Score(BUY));
    TotalOfPermutation(a, b, w, Score(SELL));
    TotalOfPermutation(a, b, w, Score(HOLD));
  }

  /** Action, confidence and agreement do not depend on the order in which the sources are listed. */
  lemma {:induction false} OrderOfSourcesIsIrrelevant(a: seq<Vote>, b: seq<Vote>, w: map<string, real>,
                                                      strategy: Strategy)
    requires multiset(a) == multiset(b) && strategy != HIGHEST_CONFIDENCE
    ensures Fuse(a, w, strategy) == Fuse(b, w, strategy)
  {
    assert |a| == |multiset(a)| == |multiset(b)| == |b|;
    if a != [] {
      TallyOfPermutation(a, b, w);
      var action := Resolve(a, TallyOf(a, w), strategy);
      TotalOfPermutation(a, b, w, Count(action));
      TotalOfPermutation(a, b, w, Confidence(action));
    }
  }

  predicate IsMostConfident(votes: seq<Vote>, v: Vote) {
    v in votes && forall u :: u in votes ==> u.confidence <= v.confidence
  }

  lemma {:induction false} HeadWins(votes: seq<Vote>)
    requires votes != [] && IsMostConfident(votes, votes[0])
    ensures MostConfident(votes) == votes[0]
  {
    if |votes| > 1 {
      var init := votes[..|votes| - 1];
      assert votes[|votes| - 1] in votes && forall u :: u in init ==> u in votes;
      HeadWins(init);
    }
  }

  /** With HIGHEST_CONFIDENCE the order decides exactly when two sources of the highest confidence disagree. */
  lemma {:induction false} OrderDecidesHighestConfidenceIff(votes: seq<Vote>, w: map<string, real>)
    requires votes != []
    ensures (forall other: seq<Vote> :: multiset(other) == multiset(votes) ==>
               Fuse(other, w, HIGHEST_CONFIDENCE).action == Fuse(votes, w, HIGHEST_CONFIDENCE).action) <==>
            forall u, v :: IsMostConfident(votes, u) && IsMostConfident(votes, v) ==> u.action == v.action
  {
    if u, v :| IsMostConfident(votes, u) && IsMostConfident(votes, v) && u.action != v.action {
      var first := if MostConfident(votes).action == u.action then v else u;
      var other := BroughtToFront(votes, first);
      assert Fuse(other, w, HIGHEST_CONFIDENCE).action != Fuse(votes, w, HIGHEST_CONFIDENCE).action;
    } else {
      forall other: seq<Vote> | multiset(other) == multiset(votes)
        ensures Fuse(other, w, HIGHEST_CONFIDENCE).action == Fuse(votes, w, HIGHEST_CONFIDENCE).action
      {
        SameMembers(other, votes);
        assert IsMostConfident(votes, MostConfident(other)) && IsMostConfident(votes, MostConfident(votes));
      }
    }
  }

  lemma SameMembers(a: seq<Vote>, b: seq<Vote>)
    requires multiset(a) == multiset(b)
    ensures (forall v :: v in a <==> v in b) && |a| == |b|
  {
    assert forall v :: v in a <==> v in multiset(a);
    assert forall v :: v in b <==> v in multiset(b);
    assert |a| == |multiset(a)| == |multiset(b)| == |b|;
  }

  lemma {:induction false} BroughtToFront(votes: seq<Vote>, v: Vote) returns (other: seq<Vote>)
    requires IsMostConfident(votes, v)
    ensures multiset(other) == multiset(votes) && other != [] && MostConfident(other) == v
  {
    var i :| 0 <= i < |votes| && votes[i] == v;
    other := [v] + (votes[..i] + votes[i + 1..]);
    WithoutOne(votes, i);
    assert multiset(other) == multiset{v} + multiset(votes[..i] + votes[i + 1..]);
    SameMembers(other, votes);
    HeadWins(other);
  }

  // ---- Swapping BUY and SELL ----

  function Swap(a: Action): Action {
    match a case BUY => SELL case SELL => BUY case HOLD => HOLD
  }

  function SwapVote(v: Vote): Vote {
    v.(action := Swap(v.action))
  }

  function SwapVotes(votes: seq<Vote>): (r: seq<Vote>)
    ensures |r| == |votes|
  {
    if votes == [] then [] else SwapVotes(votes[..|votes| - 1]) + [SwapVote(votes[|votes| - 1])]
  }

  function SwapMeasure(m: Measure): Measure {
    match m
    case Score(a) => Score(Swap(a))
    case Weight => Weight
    case Count(a) => Count(Swap(a))
    case Confidence(a) => Confidence(Swap(a))
  }

  function SwapTally(t: Tally): Tally {
    Tally(t.sell, t.buy, t.hold)
  }

  /**
   Resolution treats BUY and SELL alike exactly when they are not tied at the top without a positive score: that is
   the one case the order of the sort decides.
   */
  lemma {:induction false} ResolveIsSymmetricIff(t: Tally)
    ensures ResolveWeightedMajority(SwapTally(t)) == Swap(ResolveWeightedMajority(t)) <==>
            !(t.buy == t.sell && t.hold <= t.buy <= 0.0)
  {
    ResolveCases(t);
    ResolveCases(SwapTally(t));
  }

  /** `a` wins against rivals with scores `x` and `y`: clear by 0.10, or unopposed. */
  predicate Clear(a: real, x: real, y: real) {
    Max(x, y) <= 0.0 || a - Max(x, y) >= 0.10
  }

  /** Resolution written out over the three scores. */
  lemma {:induction false} ResolveCases(t: Tally)
    ensures ResolveWeightedMajority(t) == BUY <==> t.buy >= t.sell && t.buy >= t.hold && Clear(t.buy, t.sell, t.hold)
    ensures ResolveWeightedMajority(t) == SELL <==> t.sell > t.buy && t.sell >= t.hold && Clear(t.sell, t.buy, t.hold)
  {
  }

  lemma {:induction false} TotalOfSwapped(votes: seq<Vote>, w: map<string, real>, m: Measure)
    ensures Total(SwapVotes(votes), w, SwapMeasure(m)) == Total(votes, w, m)
  {
    if votes != [] {
      var init, last := votes[..|votes| - 1], votes[|votes| - 1];
      TotalOfSwapped(init, w, m);
      assert SwapVotes(votes)[..|votes| - 1] == SwapVotes(init);
      assert Part(SwapVote(last), w, SwapMeasure(m)) == Part(last, w, m);
    }
  }

  lemma {:induction false} TallyOfSwapped(votes: seq<Vote>, w: map<string, real>)
    ensures TallyOf(SwapVotes(votes), w) == SwapTally(TallyOf(votes, w))
  {
    TotalOfSwapped(votes, w, Weight);
    TotalOfSwapped(votes, w, Score(BUY));
    TotalOfSwapped(votes, w, Score(SELL));
    TotalOfSwapped(votes, w, Score(HOLD));
  }

  /**
   The fused action follows the exchange exactly when BUY and SELL are not tied at the top without a positive score.
   */
  lemma {:induction false} FusedActionIsSymmetricIff(votes: seq<Vote>, w: map<string, real>)
    requires votes != []
    ensures var t := TallyOf(votes, w);
            Fuse(SwapVotes(votes), w, WEIGHTED_MAJORITY).action == Swap(Fuse(votes, w, WEIGHTED_MAJORITY).action) <==>
              !(t.buy == t.sell && t.hold <= t.buy <= 0.0)
  {
    TallyOfSwapped(votes, w);
    ResolveIsSymmetricIff(TallyOf(votes, w));
  }

  /** Every confidence and every weight that can apply is positive. */
  predicate Positive(votes: seq<Vote>, w: map<string, real>) {
    forall v :: v in votes ==> v.confidence > 0.0 && WeightOf(w, v.source) > 0.0
  }

  /** No measure of positive votes is negative; the total weight is positive, and so is some score. */
  lemma {:induction false} PositiveTotals(votes: seq<Vote>, w: map<string, real>)
    requires Positive(votes, w) && votes != []
    ensures forall a :: Total(votes, w, Score(a)) >= 0.0
    ensures Total(votes, w, Weight) > 0.0
    ensures Total(votes, w, Score(votes[|votes| - 1].action)) > 0.0
  {
    var init, last := votes[..|votes| - 1], votes[|votes| - 1];
    assert forall v :: v in init ==> v in votes;
    if init != [] {
      PositiveTotals(init, w);
    }
    assert last in votes;
    TimesKeepsSign(WeightOf(w, last.source), last.confidence);
  }

  lemma DivideKeepsSign(x: real, y: real)
    requires y > 0.0
    ensures x > 0.0 ==> Normalized(x, y) > 0.0
    ensures x >= 0.0 ==> Normalized(x, y) >= 0.0
  {
    var q := x / y;
    assert q * y == x;
  }

  lemma {:induction false} SomeScoreIsPositive(votes: seq<Vote>, w: map<string, real>)
    requires Positive(votes, w) && votes != []
    ensures var t := TallyOf(votes, w); t.buy > 0.0 || t.sell > 0.0 || t.hold > 0.0
  {
    PositiveTotals(votes, w);
    var action := votes[|votes| - 1].action;
    DivideKeepsSign(Total(votes, w, Score(action)), Total(votes, w, Weight));
    assert action == BUY || action == SELL || action == HOLD;
  }

  /** Exchanging BUY and SELL in the sources exchanges them in the result and changes nothing else. */
  lemma {:induction false} FusionIsSymmetric(votes: seq<Vote>, w: map<string, real>)
    requires Positive(votes, w)
    ensures var f, g := Fuse(votes, w, WEIGHTED_MAJORITY), Fuse(SwapVotes(votes), w, WEIGHTED_MAJORITY);
            g == f.(action := Swap(f.action))
  {
    if votes != [] {
      var t := TallyOf(votes, w);
      var action := ResolveWeightedMajority(t);
      TallyOfSwapped(votes, w);
      SomeScoreIsPositive(votes, w);
      ResolveIsSymmetricIff(t);
      TotalOfSwapped(votes, w, Count(action));
      TotalOfSwapped(votes, w, Confidence(action));
    }
  }

  // ---- Confidence of a BUY source ----

  function Rank(a: Action): int {
    match a case SELL => -1 case HOLD => 0 case BUY => 1
  }

  lemma {:induction false} ResolveIsMonotone(t: Tally, buy: real)
    requires t.buy <= buy
    ensures Rank(ResolveWeightedMajority(t)) <= Rank(ResolveWeightedMajority(t.(buy := buy)))
  {
    var u := t.(buy := buy);
    assert ScoreOf(t, BUY) == t.buy && ScoreOf(t, SELL) == t.sell && ScoreOf(t, HOLD) == t.hold;
    assert ScoreOf(u, BUY) == buy && ScoreOf(u, SELL) == t.sell && ScoreOf(u, HOLD) == t.hold;
  }

  lemma {:induction false} TotalOfUpdate(votes: seq<Vote>, i: nat, v: Vote, w: map<string, real>, m: Measure)
    requires i < |votes|
    ensures Total(votes[i := v], w, m) == Total(votes, w, m) - Part(votes[i], w, m) + Part(v, w, m)
  {
    var updated := votes[i := v];
    assert updated[..i] + updated[i + 1..] == votes[..i] + votes[i + 1..];
    TotalWithoutOne(votes, i, w, m);
    TotalWithoutOne(updated, i, w, m);
  }

  lemma NormalizedIsMonotone(x: real, y: real, weight: real)
    requires x <= y
    ensures Normalized(x, weight) <= Normalized(y, weight)
  {
    if weight > 0.0 {
      var p, q := x / weight, y / weight;
      assert p * weight == x && q * weight == y;
      assert (q - p) * weight >= 0.0;
    }
  }

  /** Raising the confidence of a BUY source never moves the action toward SELL. */
  lemma {:induction false} FusionIsMonotone(votes: seq<Vote>, i: nat, confidence: real, w: map<string, real>)
    requires i < |votes| && votes[i].action == BUY && votes[i].confidence <= confidence
    requires WeightOf(w, votes[i].source) >= 0.0
    ensures var raised := votes[i := votes[i].(confidence := confidence)];
            Rank(Fuse(votes, w, WEIGHTED_MAJORITY).action) <= Rank(Fuse(raised, w, WEIGHTED_MAJORITY).action)
  {
    var v := votes[i].(confidence := confidence);
    TotalOfUpdate(votes, i, v, w, Weight);
    TotalOfUpdate(votes, i, v, w, Score(BUY));
    TotalOfUpdate(votes, i, v, w, Score(SELL));
    TotalOfUpdate(votes, i, v, w, Score(HOLD));
    TimesIsMonotone(votes[i].confidence, confidence, WeightOf(w, v.source));
    NormalizedIsMonotone(Total(votes, w, Score(BUY)), Total(votes[i := v], w, Score(BUY)), Total(votes, w, Weight));
    var t, u := TallyOf(votes, w), TallyOf(votes[i := v], w);
    assert u == t.(buy := u.buy);
    ResolveIsMonotone(t, u.buy);
  }

  // ---- Range ----

  lemma {:induction false} CountRange(votes: seq<Vote>, w: map<string, real>, a: Action)
    ensures 0.0 <= Total(votes, w, Count(a)) <= |votes| as real
    ensures Total(votes, w, Count(a)) == |votes| as real <==> forall v :: v in votes ==> v.action == a
  {
    if votes != [] {
      var init, last := votes[..|votes| - 1], votes[|votes| - 1];
      CountRange(init, w, a);
      assert forall v :: v in votes <==> v in init || v == last;
    }
  }

  /** Confidence stays within [0.30, 0.95]; agreement within [0, 1], and is 1 exactly when every source agrees. */
  lemma {:induction false} FusedRange(votes: seq<Vote>, w: map<string, real>, strategy: Strategy)
    ensures var f := Fuse(votes, w, strategy);
            && 0.30 <= f.confidence <= 0.95
            && 0.0 <= f.agreement <= 1.0
            && (votes != [] ==> (f.agreement == 1.0 <==> forall v :: v in votes ==> v.action == f.action))
  {
    if votes != [] {
      var action := Fuse(votes, w, strategy).action;
      CountRange(votes, w, action);
      Share(Total(votes, w, Count(action)), |votes| as real);
    }
  }

  lemma Share(part: real, whole: real)
    requires 0.0 <= part <= whole && whole > 0.0
    ensures 0.0 <= part / whole <= 1.0
    ensures part / whole == 1.0 <==> part == whole
  {
    var q := part / whole;
    assert q * whole == part;
  }

  // ---- Ties, over the sources ----

  predicate WeighedUpward(votes: seq<Vote>, w: map<string, real>) {
    forall v :: v in votes ==> v.confidence >= 0.0 && WeightOf(w, v.source) > 0.0
  }

  /** The scores are 0 together exactly when every confidence is. */
  lemma {:induction false} ScoresVanishIff(votes: seq<Vote>, w: map<string, real>)
    requires WeighedUpward(votes, w)
    ensures forall a :: Total(votes, w, Score(a)) >= 0.0
    ensures (forall a :: Total(votes, w, Score(a)) == 0.0) <==> forall v :: v in votes ==> v.confidence == 0.0
    ensures votes != [] ==> Total(votes, w, Weight) > 0.0
  {
    if votes != [] {
      var init, last := votes[..|votes| - 1], votes[|votes| - 1];
      assert last in votes && forall v :: v in init ==> v in votes;
      assert forall v :: v in votes ==> v in init || v == last;
      ScoresVanishIff(init, w);
      TimesKeepsSign(last.confidence, WeightOf(w, last.source));
      assert Total(votes, w, Score(last.action)) >= Total(init, w, Score(last.action));
      assert forall a :: Total(votes, w, Score(a)) >= Total(init, w, Score(a));
    }
  }

  lemma NormalizedKeepsSign(x: real, weight: real)
    requires weight > 0.0 && x >= 0.0
    ensures Normalized(x, weight) >= 0.0 && (Normalized(x, weight) == 0.0 <==> x == 0.0)
  {
    var q := x / weight;
    assert q * weight == x;
  }

  lemma {:induction false} TallyVanishesIff(votes: seq<Vote>, w: map<string, real>)
    requires votes != [] && WeighedUpward(votes, w)
    ensures var t := TallyOf(votes, w);
            && t.buy >= 0.0 && t.sell >= 0.0 && t.hold >= 0.0
            && (t == Tally(0.0, 0.0, 0.0) <==> forall v :: v in votes ==> v.confidence == 0.0)
  {
    ScoresVanishIff(votes, w);
    NormalizedKeepsSign(Total(votes, w, Score(BUY)), Total(votes, w, Weight));
    NormalizedKeepsSign(Total(votes, w, Score(SELL)), Total(votes, w, Weight));
    NormalizedKeepsSign(Total(votes, w, Score(HOLD)), Total(votes, w, Weight));
    assert (forall a :: Total(votes, w, Score(a)) == 0.0) <==>
        (Total(votes, w, Score(BUY)) == 0.0 && Total(votes, w, Score(SELL)) == 0.0
         && Total(votes, w, Score(HOLD)) == 0.0);
  }

  /**
   A tie of the two highest scores is documented to give HOLD. Over sources with positive weights it fails to exactly
   when no source has any confidence; the answer is BUY then.
   */
  lemma {:induction false} TieGivesHoldIffAnyConfidence(votes: seq<Vote>, w: map<string, real>)
    requires votes != [] && WeighedUpward(votes, w)
    requires var t := TallyOf(votes, w); ScoreOf(t, Top(t)) == RunnerUp(t)
    ensures Fuse(votes, w, WEIGHTED_MAJORITY).action == HOLD <==> exists v :: v in votes && v.confidence > 0.0
    ensures Fuse(votes, w, WEIGHTED_MAJORITY).action != HOLD ==> Fuse(votes, w, WEIGHTED_MAJORITY).action == BUY
  {
    var t := TallyOf(votes, w);
    TallyVanishesIff(votes, w);
    TieGivesHoldIffPositive(t);
    assert ScoreOf(t, BUY) == t.buy && ScoreOf(t, SELL) == t.sell && ScoreOf(t, HOLD) == t.hold;
    assert (forall v :: v in votes ==> v.confidence == 0.0) <==> !exists v :: v in votes && v.confidence > 0.0;
  }

  /** Over the sources: the action follows the exchange of BUY and SELL exactly when some source has confidence. */
  lemma {:induction false} SymmetricIffAnyConfidence(votes: seq<Vote>, w: map<string, real>)
    requires votes != [] && WeighedUpward(votes, w)
    ensures Fuse(SwapVotes(votes), w, WEIGHTED_MAJORITY).action == Swap(Fuse(votes, w, WEIGHTED_MAJORITY).action) <==>
              exists v :: v in votes && v.confidence > 0.0
  {
    FusedActionIsSymmetricIff(votes, w);
    TallyVanishesIff(votes, w);
    assert (forall v :: v in votes ==> v.confidence == 0.0) <==> !exists v :: v in votes && v.confidence > 0.0;
  }

  // ---- Unanimous sources ----

  lemma TimesDistributes(x: real, y: real, z: real)
    ensures Times(x + y, z) == Times(x, z) + Times(y, z)
  {
  }

  lemma {:induction false} UnanimousTotals(votes: seq<Vote>, w: map<string, real>, a: Action, c: real)
    requires forall v :: v in votes ==> v.action == a && v.confidence == c
    ensures Total(votes, w, Score(a)) == Times(Total(votes, w, Weight), c)
    ensures Total(votes, w, Confidence(a)) == Times(|votes| as real, c)
    ensures forall b :: b != a ==> Total(votes, w, Score(b)) == 0.0
  {
    if votes != [] {
      var init, last := votes[..|votes| - 1], votes[|votes| - 1];
      UnanimousTotals(init, w, a, c);
      assert last in votes;
      TimesDistributes(Total(init, w, Weight), WeightOf(w, last.source), c);
      TimesDistributes(|init| as real, 1.0, c);
    }
  }

  lemma NormalizedProduct(weight: real, c: real)
    requires weight > 0.0
    ensures Normalized(Times(weight, c), weight) == c && Times(weight, c) / weight == c
  {
    var q := weight * c / weight;
    assert q * weight == weight * c;
  }

  lemma {:induction false} UnanimousTally(votes: seq<Vote>, w: map<string, real>, a: Action, c: real)
    requires votes != [] && Positive(votes, w) && forall v :: v in votes ==> v.action == a && v.confidence == c
    ensures ScoreOf(TallyOf(votes, w), a) == c && forall b :: b != a ==> ScoreOf(TallyOf(votes, w), b) == 0.0
  {
    PositiveTotals(votes, w);
    UnanimousTotals(votes, w, a, c);
    NormalizedProduct(Total(votes, w, Weight), c);
    var t := TallyOf(votes, w);
    assert ScoreOf(t, BUY) == t.buy && ScoreOf(t, SELL) == t.sell && ScoreOf(t, HOLD) == t.hold;
    match a case BUY => case SELL => case HOLD =>
  }

  lemma {:induction false} ResolveUnopposed(t: Tally, a: Action)
    requires ScoreOf(t, a) > 0.0 && forall b :: b != a ==> ScoreOf(t, b) == 0.0
    ensures ResolveWeightedMajority(t) == a
  {
    assert ScoreOf(t, BUY) == t.buy && ScoreOf(t, SELL) == t.sell && ScoreOf(t, HOLD) == t.hold;
  }

  lemma FullAgreementConfidence(c: real, n: real)
    requires n > 0.0
    ensures FusedConfidence(c, n / n, n, Times(n, c)) == Min(0.95, Max(0.30, c + 0.10)) && n / n == 1.0
  {
    NormalizedProduct(n, c);
    NormalizedProduct(n, 1.0);
  }

  /** Sources that all say the same with the same confidence are answered with that action, and 0.10 more confidence. */
  lemma {:induction false} UnanimousSourcesGainATenth(votes: seq<Vote>, w: map<string, real>, a: Action, c: real)
    requires votes != [] && Positive(votes, w) && forall v :: v in votes ==> v.action == a && v.confidence == c
    ensures Fuse(votes, w, WEIGHTED_MAJORITY) == FusedSignal(a, Min(0.95, Max(0.30, c + 0.10)), 1.0)
  {
    assert votes[0] in votes;
    UnanimousTally(votes, w, a, c);
    ResolveUnopposed(TallyOf(votes, w), a);
    UnanimousTotals(votes, w, a, c);
    CountRange(votes, w, a);
    FullAgreementConfidence(c, |votes| as real);
  }
}
