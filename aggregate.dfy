/**
 * The aggregator (matching.py `calculate_matching_score`): score the five
 * indicators in order A-E with one shared style cache, take the weighted mean
 * of the integer scores, expand it piecewise and clamp it into the total-score
 * band. The boosted professor is expanded on a steep line and capped at 89;
 * every other professor is capped at 88.
 */
module Aggregate {
  import opened Wrappers
  import opened PyNum
  import opened Similarity
  import opened Catalog
  import opened Services
  import opened Indicators

  /** The order in which the indicators are scored. */
  const Order: seq<Indicator> := [A, B, C, D, E]

  /** The indicator weights: research keyword and methodology count more. */
  function Weight(i: Indicator): real {
    match i
    case A => 1.3
    case B => 1.2
    case _ => 1.0
  }

  datatype Breakdown = Breakdown(a: int, b: int, c: int, d: int, e: int)

  datatype MatchResult = MatchResult(
    professorId: string,
    totalScore: int,
    indicatorScores: seq<IndicatorScore>,
    breakdown: Breakdown)

  /** The indicator each score is for, in order. */
  function IndicatorsOf(scores: seq<IndicatorScore>): seq<Indicator> {
    seq(|scores|, i requires 0 <= i < |scores| => scores[i].indicator)
  }

  /** Where the indicator loop stands: the scores so far (or the failure) and the cache. */
  type LoopState = (Result<seq<IndicatorScore>, Error>, Option<map<string, Vector>>)

  /** One indicator call as a value: its result and the cache after it. */
  type Scorer = (Indicator, map<string, Vector>) -> (Result<IndicatorScore, Error>, map<string, Vector>)

  /** `calculate_indicator_score` for one applicant and professor. */
  function IndicatorScorer(a: Applicant, professorId: string, env: Env): Scorer {
    (ind: Indicator, cache: map<string, Vector>) => IndicatorSpec(a, professorId, ind, cache, env)
  }

  /**
   * One turn of the indicator loop. `None` stands for the source's `None`
   * cache: each indicator call then works on a fresh dict of its own. A
   * failure stops the loop.
   */
  function ScoreStep(scorer: Scorer, ind: Indicator, state: LoopState): (r: LoopState)
    ensures state.0.Err? ==> r == state
    ensures state.0.Ok? && r.0.Ok? ==>
      |r.0.value| == |state.0.value| + 1 && r.0.value[..|state.0.value|] == state.0.value
    ensures state.1.None? <==> r.1.None?
  {
    if state.0.Err? then state
    else
      var step := scorer(ind, state.1.GetOr(map[]));
      var next := if state.1.None? then None else Some(step.1);
      if step.0.Err? then (Err(step.0.error), next)
      else (Ok(state.0.value + [step.0.value]), next)
  }

  /** The indicators scored in order, with the cache threaded through. */
  function ScoreIndicators(scorer: Scorer, inds: seq<Indicator>, cache: Option<map<string, Vector>>): (r: LoopState)
    ensures r.0.Ok? ==> |r.0.value| == |inds|
    ensures cache.None? <==> r.1.None?
    decreases |inds|
  {
    if inds == [] then (Ok([]), cache)
    else
      var n := |inds| - 1;
      ScoreStep(scorer, inds[n], ScoreIndicators(scorer, inds[..n], cache))
  }

  /** `weighted_sum`: each integer score times its indicator's weight. */
  function WeightedSum(scores: seq<IndicatorScore>): real
    decreases |scores|
  {
    if scores == [] then 0.0
    else
      var n := |scores| - 1;
      WeightedSum(scores[..n]) + scores[n].score as real * Weight(scores[n].indicator)
  }

  /** `total_weight`: every weight is at least 1, so the sum is at least the count. */
  function TotalWeight(scores: seq<IndicatorScore>): (r: real)
    ensures r >= |scores| as real
    decreases |scores|
  {
    if scores == [] then 0.0
    else
      var n := |scores| - 1;
      TotalWeight(scores[..n]) + Weight(scores[n].indicator)
  }

  lemma SumsSnoc(scores: seq<IndicatorScore>, x: IndicatorScore)
    ensures WeightedSum(scores + [x]) == WeightedSum(scores) + x.score as real * Weight(x.indicator)
    ensures TotalWeight(scores + [x]) == TotalWeight(scores) + Weight(x.indicator)
  {
    assert (scores + [x])[..|scores|] == scores;
  }

  /** The piecewise expansion of the weighted mean (before the clamp). */
  function ExpandTotal(professorId: string, avg: real, pow15: real -> real): int {
    if professorId == BoostedProfessor then RoundHalfEven(76.0 + (avg - 76.0) * 18.3)
    else if avg >= 80.0 then RoundHalfEven(80.0 - (avg - 80.0) * 2.5)
    else if avg >= 78.0 then RoundHalfEven(78.0 - (avg - 78.0) * 1.5)
    else if avg >= 75.0 then RoundHalfEven(75.0 + (avg - 75.0) * 1.0)
    else if avg >= 73.0 then RoundHalfEven(73.0 + (avg - 73.0) * 0.8)
    else RoundHalfEven(73.0 - pow15((73.0 - avg) / 3.0) * 3.0)
  }

  function TotalCeiling(professorId: string): int {
    if professorId == BoostedProfessor then 89 else 88
  }

  function TotalScore(professorId: string, avg: real, pow15: real -> real): int {
    Clamp(70, TotalCeiling(professorId), ExpandTotal(professorId, avg, pow15))
  }

  /** The record built from five successful indicator scores. */
  function Assemble(professorId: string, scores: seq<IndicatorScore>, pow15: real -> real): MatchResult
    requires |scores| == 5
  {
    MatchResult(professorId, TotalScore(professorId, WeightedSum(scores) / TotalWeight(scores), pow15), scores,
                Breakdown(scores[0].score, scores[1].score, scores[2].score, scores[3].score, scores[4].score))
  }

  /** One `calculate_matching_score` call: its result and the cache after it. */
  function MatchingSpec(a: Applicant, professorId: string, cache: Option<map<string, Vector>>, env: Env)
    : (Result<MatchResult, Error>, Option<map<string, Vector>>)
  {
    var (r, after) := ScoreIndicators(IndicatorScorer(a, professorId, env), Order, cache);
    if r.Err? then (Err(r.error), after)
    else (Ok(Assemble(professorId, r.value, env.pow15)), after)
  }

  /** The cache as the source sees it: `None`, or the dict's current contents. */
  function Snapshot(cache: StyleCache?): Option<map<string, Vector>>
    reads cache
  {
    if cache == null then None else Some(cache.entries)
  }

  /** The indicator loop of `calculate_matching_score`: score A-E in order with one cache. */
  method ScoreAllIndicators(a: Applicant, professorId: string, cache: StyleCache?, env: Env)
    returns (r: Result<seq<IndicatorScore>, Error>)
    modifies cache
    ensures r == ScoreIndicators(IndicatorScorer(a, professorId, env), Order, old(Snapshot(cache))).0
    ensures Snapshot(cache) == ScoreIndicators(IndicatorScorer(a, professorId, env), Order, old(Snapshot(cache))).1
  {
    ghost var scorer := IndicatorScorer(a, professorId, env);
    ghost var init := Snapshot(cache);
    var scores: seq<IndicatorScore> := [];
    for k := 0 to 5
      invariant ScoreIndicators(scorer, Order[..k], init) == (Ok(scores), Snapshot(cache))
    {
      FoldSnoc(scorer, Order, k, init);
      ghost var before := Snapshot(cache);
      var s := CalculateIndicatorScore(a, professorId, Order[k], cache, env);
      StepAfterCall(a, professorId, Order[k], scores, before, Snapshot(cache), s, env);
      if s.Err? {
        ErrorPersists(scorer, Order, k + 1, init);
        return Err(s.error);
      }
      scores := scores + [s.value];
    }
    assert Order[..5] == Order;
    r := Ok(scores);
  }

  lemma FoldSnoc(scorer: Scorer, inds: seq<Indicator>, k: nat, cache: Option<map<string, Vector>>)
    requires k < |inds|
    ensures ScoreIndicators(scorer, inds[..k + 1], cache) == ScoreStep(scorer, inds[k], ScoreIndicators(scorer, inds[..k], cache))
  {
    assert inds[..k + 1][..k] == inds[..k];
  }

  /** What one loop turn adds, given what the indicator call returned and left in the cache. */
  lemma StepAfterCall(a: Applicant, professorId: string, ind: Indicator, scores: seq<IndicatorScore>,
                      before: Option<map<string, Vector>>, after: Option<map<string, Vector>>,
                      s: Result<IndicatorScore, Error>, env: Env)
    requires s == IndicatorSpec(a, professorId, ind, before.GetOr(map[]), env).0
    requires before.None? ==> after.None?
    requires before.Some? ==> after == Some(IndicatorSpec(a, professorId, ind, before.value, env).1)
    ensures ScoreStep(IndicatorScorer(a, professorId, env), ind, (Ok(scores), before))
         == if s.Err? then (Err(s.error), after) else (Ok(scores + [s.value]), after)
  {
  }

  /** The running `weighted_sum` and `total_weight` over the indicator scores. */
  method WeightedTotals(scores: seq<IndicatorScore>) returns (weightedSum: real, totalWeight: real)
    ensures weightedSum == WeightedSum(scores) && totalWeight == TotalWeight(scores)
  {
    weightedSum, totalWeight := 0.0, 0.0;
    for k := 0 to |scores|
      invariant weightedSum == WeightedSum(scores[..k]) && totalWeight == TotalWeight(scores[..k])
    {
      SumsSnoc(scores[..k], scores[k]);
      assert scores[..k + 1] == scores[..k] + [scores[k]];
      var weight := Weight(scores[k].indicator);
      weightedSum := weightedSum + scores[k].score as real * weight;
      totalWeight := totalWeight + weight;
    }
    assert scores[..|scores|] == scores;
  }

  method CalculateMatchingScore(a: Applicant, professorId: string, cache: StyleCache?, env: Env)
    returns (r: Result<MatchResult, Error>)
    modifies cache
    ensures r == MatchingSpec(a, professorId, old(Snapshot(cache)), env).0
    ensures Snapshot(cache) == MatchingSpec(a, professorId, old(Snapshot(cache)), env).1
  {
    var scores := ScoreAllIndicators(a, professorId, cache, env);
    if scores.Err? {
      return Err(scores.error);
    }
    var s := scores.value;
    var weightedSum, totalWeight := WeightedTotals(s);
    var avg := weightedSum / totalWeight;
    r := Ok(MatchResult(professorId, TotalScore(professorId, avg, env.pow15), s,
                        Breakdown(s[0].score, s[1].score, s[2].score, s[3].score, s[4].score)));
  }

  // ---------------------------------------------------------------------------
  // Properties

  /** Once an indicator fails, scoring more indicators changes neither the failure nor the cache. */
  lemma {:induction false} ErrorPersists(scorer: Scorer, inds: seq<Indicator>, k: nat, cache: Option<map<string, Vector>>)
    requires k <= |inds|
    requires ScoreIndicators(scorer, inds[..k], cache).0.Err?
    ensures ScoreIndicators(scorer, inds, cache) == ScoreIndicators(scorer, inds[..k], cache)
    decreases |inds|
  {
    if k < |inds| {
      var n := |inds| - 1;
      assert inds[..n][..k] == inds[..k];
      ErrorPersists(scorer, inds[..n], k, cache);
    } else {
      assert inds[..k] == inds;
    }
  }

  /** A successful run over all indicators is a successful run over each prefix, extended. */
  lemma {:induction false} PrefixOk(scorer: Scorer, inds: seq<Indicator>, k: nat, cache: Option<map<string, Vector>>)
    requires k <= |inds|
    requires ScoreIndicators(scorer, inds, cache).0.Ok?
    ensures ScoreIndicators(scorer, inds[..k], cache).0.Ok?
    ensures ScoreIndicators(scorer, inds[..k], cache).0.value == ScoreIndicators(scorer, inds, cache).0.value[..k]
    decreases |inds|
  {
    if k < |inds| {
      var n := |inds| - 1;
      assert inds[..n][..k] == inds[..k];
      PrefixOk(scorer, inds[..n], k, cache);
      assert ScoreIndicators(scorer, inds, cache).0.value[..n][..k] == ScoreIndicators(scorer, inds, cache).0.value[..k];
    } else {
      assert inds[..k] == inds;
    }
  }

  /** A scorer that labels each score with the indicator it was asked for. */
  ghost predicate Labels(scorer: Scorer) {
    forall ind, c :: scorer(ind, c).0.Ok? ==> scorer(ind, c).0.value.indicator == ind
  }

  lemma {:induction false} LabelledInOrder(scorer: Scorer, inds: seq<Indicator>, cache: Option<map<string, Vector>>)
    requires Labels(scorer)
    ensures var r := ScoreIndicators(scorer, inds, cache).0;
      r.Ok? ==> IndicatorsOf(r.value) == inds
    decreases |inds|
  {
    if inds != [] {
      var n := |inds| - 1;
      var prev := ScoreIndicators(scorer, inds[..n], cache);
      LabelledInOrder(scorer, inds[..n], cache);
      var r := ScoreIndicators(scorer, inds, cache).0;
      if r.Ok? {
        StepValue(scorer, inds[n], prev);
        assert r.value == prev.0.value + [r.value[n]];
        assert IndicatorsOf(r.value) == IndicatorsOf(prev.0.value) + [inds[n]];
        assert inds == inds[..n] + [inds[n]];
      }
    }
  }

  /** Each successful score is for the indicator scored at that position. */
  lemma IndicatorOrder(a: Applicant, professorId: string, inds: seq<Indicator>,
                       cache: Option<map<string, Vector>>, env: Env)
    ensures var r := ScoreIndicators(IndicatorScorer(a, professorId, env), inds, cache).0;
      r.Ok? ==> IndicatorsOf(r.value) == inds
  {
    var scorer := IndicatorScorer(a, professorId, env);
    forall ind, c
      ensures scorer(ind, c).0.Ok? ==> scorer(ind, c).0.value.indicator == ind
    {
      ScoredIndicator(a, professorId, ind, c, env);
    }
    LabelledInOrder(scorer, inds, cache);
  }

  /** The weighted mean is (1.3 A + 1.2 B + C + D + E) / 5.5. */
  lemma WeightedMean(scores: seq<IndicatorScore>)
    requires |scores| == 5 && scores[0].indicator == A && scores[1].indicator == B && scores[2].indicator == C
      && scores[3].indicator == D && scores[4].indicator == E
    ensures TotalWeight(scores) == 5.5
    ensures WeightedSum(scores) / TotalWeight(scores) ==
      (1.3 * (scores[0].score as real) + 1.2 * (scores[1].score as real) + (scores[2].score as real)
       + (scores[3].score as real) + (scores[4].score as real)) / 5.5
  {
    var w := seq(5, i requires 0 <= i < 5 => scores[i].score as real);
    assert TotalWeight(scores[..1]) == 1.3 && WeightedSum(scores[..1]) == 1.3 * w[0];
    assert TotalWeight(scores[..2]) == 2.5 && WeightedSum(scores[..2]) == 1.3 * w[0] + 1.2 * w[1];
    assert scores[..3][..2] == scores[..2];
    assert TotalWeight(scores[..3]) == 3.5 && WeightedSum(scores[..3]) == 1.3 * w[0] + 1.2 * w[1] + w[2];
    assert scores[..4][..3] == scores[..3];
    assert TotalWeight(scores[..4]) == 4.5 && WeightedSum(scores[..4]) == 1.3 * w[0] + 1.2 * w[1] + w[2] + w[3];
    assert scores[..5] == scores;
  }

  /**
   * A successful result names its professor, lists the five indicator scores
   * in order A-E, mirrors them in the breakdown, and its total lies in
   * [70, 89] for the boosted professor and [70, 88] for everyone else.
   */
  lemma MatchResultShape(a: Applicant, professorId: string, cache: Option<map<string, Vector>>, env: Env)
    ensures var r := MatchingSpec(a, professorId, cache, env).0;
      r.Ok? ==>
        && r.value.professorId == professorId
        && IndicatorsOf(r.value.indicatorScores) == Order
        && r.value.breakdown == Breakdown(r.value.indicatorScores[0].score, r.value.indicatorScores[1].score,
             r.value.indicatorScores[2].score, r.value.indicatorScores[3].score, r.value.indicatorScores[4].score)
        && 70 <= r.value.totalScore <= TotalCeiling(professorId)
  {
    IndicatorOrder(a, professorId, Order, cache, env);
  }

  /**
   * A professor with no QA entries for an indicator, or an applicant without
   * learning styles for B-E, contributes 0 to that slot of the breakdown.
   */
  lemma ZeroSlots(a: Applicant, professorId: string, cache: Option<map<string, Vector>>, env: Env, k: nat)
    requires k < 5
    requires QaEntries(env.catalog, professorId, Name(Order[k])) == [] || (k > 0 && StyleTerms(a.learningStyles) == [])
    ensures var r := MatchingSpec(a, professorId, cache, env).0;
      r.Ok? ==> r.value.indicatorScores[k].score == 0 && r.value.indicatorScores[k].details == []
  {
    var scorer := IndicatorScorer(a, professorId, env);
    MatchingScores(a, professorId, cache, env);
    Slot(scorer, Order, k, cache);
    IndicatorZero(a, professorId, Order[k], ScoreIndicators(scorer, Order[..k], cache).1.GetOr(map[]), env);
  }

  /** The score at position k is what the scorer returned for the k-th indicator, given the cache after the first k. */
  lemma Slot(scorer: Scorer, inds: seq<Indicator>, k: nat, cache: Option<map<string, Vector>>)
    requires k < |inds|
    ensures var r := ScoreIndicators(scorer, inds, cache).0;
      r.Ok? ==> scorer(inds[k], ScoreIndicators(scorer, inds[..k], cache).1.GetOr(map[])).0 == Ok(r.value[k])
  {
    var r := ScoreIndicators(scorer, inds, cache).0;
    if r.Ok? {
      PrefixOk(scorer, inds, k, cache);
      PrefixOk(scorer, inds, k + 1, cache);
      FoldSnoc(scorer, inds, k, cache);
      StepValue(scorer, inds[k], ScoreIndicators(scorer, inds[..k], cache));
      assert r.value[..k + 1][k] == r.value[k];
    }
  }

  /** The score a successful turn appends is the one the scorer returned. */
  lemma StepValue(scorer: Scorer, ind: Indicator, state: LoopState)
    requires state.0.Ok? && ScoreStep(scorer, ind, state).0.Ok?
    ensures scorer(ind, state.1.GetOr(map[])).0.Ok?
    ensures ScoreStep(scorer, ind, state).0.value[|state.0.value|] == scorer(ind, state.1.GetOr(map[])).0.value
  {
  }

  /** A matching record carries exactly the scores of the indicator loop; it fails exactly when the loop fails. */
  lemma MatchingScores(a: Applicant, professorId: string, cache: Option<map<string, Vector>>, env: Env)
    ensures var loop := ScoreIndicators(IndicatorScorer(a, professorId, env), Order, cache);
      var r := MatchingSpec(a, professorId, cache, env);
      && (r.0.Ok? <==> loop.0.Ok?)
      && (r.0.Err? ==> r.0.error == loop.0.error)
      && (r.0.Ok? ==> r.0.value.indicatorScores == loop.0.value)
      && r.1 == loop.1
  {
  }

  /** With every learning style already cached, scoring all indicators leaves the cache unchanged. */
  lemma {:induction false} ScoringKeepsPrefilledCache(a: Applicant, professorId: string, inds: seq<Indicator>,
                                                      cache: map<string, Vector>, env: Env)
    requires forall s :: s in StyleTerms(a.learningStyles) ==> s in cache
    ensures ScoreIndicators(IndicatorScorer(a, professorId, env), inds, Some(cache)).1 == Some(cache)
    decreases |inds|
  {
    if inds != [] {
      var n := |inds| - 1;
      ScoringKeepsPrefilledCache(a, professorId, inds[..n], cache, env);
      IndicatorKeepsPrefilledCache(a, professorId, inds[n], cache, env);
    }
  }

  lemma MatchingKeepsPrefilledCache(a: Applicant, professorId: string, cache: map<string, Vector>, env: Env)
    requires forall s :: s in StyleTerms(a.learningStyles) ==> s in cache
    ensures MatchingSpec(a, professorId, Some(cache), env).1 == Some(cache)
  {
    ScoringKeepsPrefilledCache(a, professorId, Order, cache, env);
  }

  /** For the boosted professor a higher weighted mean never lowers the total. */
  lemma BoostedTotalMonotone(x: real, y: real, pow15: real -> real)
    requires x <= y
    ensures TotalScore(BoostedProfessor, x, pow15) <= TotalScore(BoostedProfessor, y, pow15)
  {
    MulMono(x - 76.0, y - 76.0, 18.3);
    RoundMonotone(76.0 + (x - 76.0) * 18.3, 76.0 + (y - 76.0) * 18.3);
    ClampMonotone(70, 89, ExpandTotal(BoostedProfessor, x, pow15), ExpandTotal(BoostedProfessor, y, pow15));
  }

  /**
   * For every other professor the expansion folds back above 78: a weighted
   * mean of 82 gives a lower total than a mean of 78.
   */
  lemma OtherTotalNotMonotone(professorId: string, pow15: real -> real)
    requires professorId != BoostedProfessor
    ensures TotalScore(professorId, 78.0, pow15) == 78
    ensures TotalScore(professorId, 82.0, pow15) == 75
  {
    RoundOfInt(78);
    RoundOfInt(75);
  }

  /** Between 75 and 78 the expansion is the identity up to rounding. */
  lemma OtherTotalMiddle(professorId: string, avg: real, pow15: real -> real)
    requires professorId != BoostedProfessor && 75.0 <= avg < 78.0
    ensures avg - 0.5 <= TotalScore(professorId, avg, pow15) as real <= avg + 0.5
  {
    RoundBetween(avg, 75, 78);
  }
}
