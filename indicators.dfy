/**
 * The indicator scorer (matching.py `calculate_indicator_score`): for one
 * applicant, professor and indicator, compare the applicant's signal with the
 * professor's QA answers by cosine similarity, average, and remap the mean
 * onto an integer lane. Indicator A compares the interest keyword; B to E take,
 * per answer, the best similarity over the applicant's learning styles, whose
 * embeddings are kept in a caller-owned cache that the scorer fills in place.
 *
 * `IndicatorSpec` is the functional reference for one call (result and cache
 * afterwards); `CalculateIndicatorScore` is the imperative version, proved equal
 * to it; the lemmas state what the source promises about the reference.
 */
module Indicators {
  import opened Wrappers
  import opened PyNum
  import opened PyStr
  import opened Similarity
  import opened Catalog
  import opened Services

  datatype Indicator = A | B | C | D | E

  /** The indicator names, as stored in the catalog's "indicator" field. */
  function Name(i: Indicator): string {
    match i
    case A => "A. 연구 키워드 (Research Keyword)"
    case B => "B. 연구 방법론 (Research Methodology)"
    case C => "C. 커뮤니케이션 (Communication)"
    case D => "D. 학문 접근도 (Academic Approach)"
    case E => "E. 교수 선호도 (Preferred Student Type)"
  }

  /** `learning_styles` is a list, or a comma-separated string to be split. */
  datatype StyleField = StyleList(styles: seq<string>) | StyleText(text: string)

  datatype Applicant = Applicant(interestKeyword: string, learningStyles: StyleField)

  /** The learning styles as a list: a string is split on "," and each piece stripped. */
  function StyleTerms(f: StyleField): seq<string> {
    match f
    case StyleList(l) => l
    case StyleText(t) => StripAll(Split(t, ','))
  }

  /** One row of `details`; answers are shortened and similarities rounded to 3 places. */
  datatype Detail =
    | KeywordDetail(question: string, answer: string, similarity: real)
    | StyleDetail(question: string, answer: string, matchedStyle: string, similarity: real)

  datatype IndicatorScore = IndicatorScore(indicator: Indicator, score: int, details: seq<Detail>, qaCount: nat)

  /** The one professor id the source maps onto a higher lane, at both remapping stages. */
  const BoostedProfessor: string := "prof_001"

  /** `answer[:100] + "..."` */
  function Preview(answer: string): string {
    Take(answer, 100) + "..."
  }

  /** `round(x, 3)` */
  function Round3(x: real): real {
    RoundHalfEven(x * 1000.0) as real / 1000.0
  }

  // ---------------------------------------------------------------------------
  // Remapping the mean similarity onto the integer lane (matching.py:206-245)

  function LaneFloor(professorId: string): int {
    if professorId == BoostedProfessor then 80 else 60
  }

  function LaneCeiling(professorId: string): int {
    if professorId == BoostedProfessor then 95 else 90
  }

  /** `(avg - 0.15) / (0.4 - 0.15)` */
  function Normalized(avg: real): real {
    (avg - 0.15) / (0.4 - 0.15)
  }

  /** The boosted professor's lane: linear in the normalized mean, 80 to 95. */
  function LinearLane(avg: real): real {
    Normalized(avg) * 15.0 + 80.0
  }

  /** Every other professor's lane: the square of the normalized mean, 60 to 90. */
  function SquaredLane(avg: real): real {
    Normalized(avg) * Normalized(avg) * 30.0 + 60.0
  }

  /** The score before the final clamp: linear for the boosted professor, squared otherwise. */
  function RawIndicatorScore(professorId: string, avg: real): int {
    if professorId == BoostedProfessor then
      if avg <= 0.15 then 80
      else if avg >= 0.4 then 95
      else RoundHalfEven(LinearLane(avg))
    else
      if avg <= 0.15 then 60
      else if avg >= 0.4 then 90
      else RoundHalfEven(SquaredLane(avg))
  }

  function RemapIndicator(professorId: string, avg: real): int {
    if professorId == BoostedProfessor then Clamp(80, 95, RawIndicatorScore(professorId, avg))
    else Clamp(60, 90, RawIndicatorScore(professorId, avg))
  }

  function Sum(xs: seq<real>): real {
    if xs == [] then 0.0 else xs[0] + Sum(xs[1..])
  }

  /** `sum(scores) / len(scores)` */
  function Mean(xs: seq<real>): real
    requires xs != []
  {
    Sum(xs) / |xs| as real
  }

  // ---------------------------------------------------------------------------
  // Indicator A: the interest keyword against each answer (matching.py:119-139)

  /** `[qa["answer"] for qa in qa_list]` */
  function Answers(qa: seq<QaEntry>): (r: seq<string>)
    ensures |r| == |qa|
  {
    seq(|qa|, i requires 0 <= i < |qa| => qa[i].answer)
  }

  function KeywordSims(keywordVec: Vector, answerVecs: seq<Vector>, sqrt: real -> real): (r: seq<real>)
    ensures |r| == |answerVecs|
  {
    seq(|answerVecs|, i requires 0 <= i < |answerVecs| => Cosine(keywordVec, answerVecs[i], sqrt))
  }

  function KeywordDetails(qa: seq<QaEntry>, sims: seq<real>): (r: seq<Detail>)
    requires |sims| == |qa|
    ensures |r| == |qa|
  {
    seq(|qa|, i requires 0 <= i < |qa| => KeywordDetail(qa[i].question, Preview(qa[i].answer), Round3(sims[i])))
  }

  // ---------------------------------------------------------------------------
  // Indicators B-E: best learning style per answer (matching.py:182-198)

  /** Similarity of each style vector with one answer vector. */
  function StyleSims(styleVecs: seq<Vector>, answerVec: Vector, sqrt: real -> real): (r: seq<real>)
    ensures |r| == |styleVecs|
  {
    seq(|styleVecs|, j requires 0 <= j < |styleVecs| => Cosine(styleVecs[j], answerVec, sqrt))
  }

  /**
   * The running maximum of the inner loop after the styles seen so far: it
   * starts at (0, "") and moves only when a similarity is strictly larger.
   */
  function BestMatch(styles: seq<string>, sims: seq<real>): (real, string)
    requires |styles| == |sims|
    decreases |sims|
  {
    if sims == [] then (0.0, "")
    else
      var n := |sims| - 1;
      var prev := BestMatch(styles[..n], sims[..n]);
      if sims[n] > prev.0 then (sims[n], styles[n]) else prev
  }

  /** Per answer: the best similarity and the style that reached it. */
  function StyleBest(styles: seq<string>, styleVecs: seq<Vector>, answerVecs: seq<Vector>, sqrt: real -> real)
    : (r: seq<(real, string)>)
    requires |styles| == |styleVecs|
    ensures |r| == |answerVecs|
  {
    seq(|answerVecs|, i requires 0 <= i < |answerVecs| => BestMatch(styles, StyleSims(styleVecs, answerVecs[i], sqrt)))
  }

  function Firsts(best: seq<(real, string)>): (r: seq<real>)
    ensures |r| == |best|
  {
    seq(|best|, i requires 0 <= i < |best| => best[i].0)
  }

  function StyleDetails(qa: seq<QaEntry>, best: seq<(real, string)>): (r: seq<Detail>)
    requires |best| == |qa|
    ensures |r| == |qa|
  {
    seq(|qa|, i requires 0 <= i < |qa| => StyleDetail(qa[i].question, Preview(qa[i].answer), best[i].1, Round3(best[i].0)))
  }

  // ---------------------------------------------------------------------------
  // The style-embedding cache (matching.py:155-175)

  /** The styles not yet cached, in order; a repeated missing style is listed again. */
  function Missing(styles: seq<string>, cache: map<string, Vector>): seq<string>
    decreases |styles|
  {
    if styles == [] then []
    else
      var n := |styles| - 1;
      Missing(styles[..n], cache) + (if styles[n] in cache then [] else [styles[n]])
  }

  /** The cache after `cache[keys[i]] = vs[i]` for each i in order. */
  function Filled(cache: map<string, Vector>, keys: seq<string>, vs: seq<Vector>): map<string, Vector>
    requires |keys| == |vs|
    decreases |keys|
  {
    if keys == [] then cache
    else
      var n := |keys| - 1;
      Filled(cache, keys[..n], vs[..n])[keys[n] := vs[n]]
  }

  /** What a cache step leaves behind: the failure it raised, if any, and the cache. */
  datatype CacheOutcome = CacheOutcome(failure: Option<Error>, entries: map<string, Vector>)

  /**
   * One cache step: embed the missing styles in one call (if any) and store
   * them in order. A short answer from the service stores the vectors it did
   * return and then fails at the first missing index.
   */
  function CacheStep(cache: map<string, Vector>, styles: seq<string>, env: Env): CacheOutcome {
    var missing := Missing(styles, cache);
    if missing == [] then CacheOutcome(None, cache)
    else match env.embed(missing)
      case None => CacheOutcome(Some(EmbeddingFailed), cache)
      case Some(vs) =>
        if |vs| < |missing| then CacheOutcome(Some(EmbeddingTooShort), Filled(cache, missing[..|vs|], vs))
        else CacheOutcome(None, Filled(cache, missing, vs[..|missing|]))
  }

  /**
   * `[cache[style] for style in learning_styles]`. It is only read after a
   * successful cache step, which holds every style (`CacheStepGrows`), so the
   * empty vector for an absent key is never produced.
   */
  function StyleVectors(cache: map<string, Vector>, styles: seq<string>): (r: seq<Vector>)
    ensures |r| == |styles|
  {
    seq(|styles|, j requires 0 <= j < |styles| => if styles[j] in cache then cache[styles[j]] else [])
  }

  // ---------------------------------------------------------------------------
  // One call of the scorer, as a function of the inputs and the cache before it

  function KeywordScore(keyword: string, professorId: string, qa: seq<QaEntry>, env: Env): Result<IndicatorScore, Error>
    requires qa != []
  {
    match EmbedTexts(env, [keyword] + Answers(qa))
    case Err(e) => Err(e)
    case Ok(vs) =>
      var sims := KeywordSims(vs[0], vs[1..], env.sqrt);
      Ok(IndicatorScore(A, RemapIndicator(professorId, Mean(sims)), KeywordDetails(qa, sims), |qa|))
  }

  function StyleScore(ind: Indicator, professorId: string, qa: seq<QaEntry>, styles: seq<string>,
                      styleVecs: seq<Vector>, env: Env): Result<IndicatorScore, Error>
    requires qa != [] && |styles| == |styleVecs|
  {
    match EmbedTexts(env, Answers(qa))
    case Err(e) => Err(e)
    case Ok(avs) =>
      var best := StyleBest(styles, styleVecs, avs, env.sqrt);
      Ok(IndicatorScore(ind, RemapIndicator(professorId, Mean(Firsts(best))), StyleDetails(qa, best), |qa|))
  }

  /** The result of one scorer call and the cache after it. */
  function IndicatorSpec(a: Applicant, professorId: string, ind: Indicator, cache: map<string, Vector>, env: Env)
    : (Result<IndicatorScore, Error>, map<string, Vector>)
  {
    var qa := QaEntries(env.catalog, professorId, Name(ind));
    if qa == [] then (Ok(IndicatorScore(ind, 0, [], 0)), cache)
    else if ind == A then (KeywordScore(a.interestKeyword, professorId, qa, env), cache)
    else
      var styles := StyleTerms(a.learningStyles);
      if styles == [] then (Ok(IndicatorScore(ind, 0, [], |qa|)), cache)
      else
        var step := CacheStep(cache, styles, env);
        if step.failure.Some? then (Err(step.failure.value), step.entries)
        else (StyleScore(ind, professorId, qa, styles, StyleVectors(step.entries, styles), env), step.entries)
  }

  // ---------------------------------------------------------------------------
  // The imperative scorer

  /** The caller-owned `learning_style_embeddings` dict. */
  class StyleCache {
    var entries: map<string, Vector>

    constructor ()
      ensures entries == map[]
    {
      entries := map[];
    }

    /** Embed the styles not yet cached, store them, and return the vectors of all styles in order. */
    method Fill(styles: seq<string>, env: Env) returns (r: Result<seq<Vector>, Error>)
      modifies this
      ensures entries == CacheStep(old(entries), styles, env).entries
      ensures CacheStep(old(entries), styles, env).failure.None? ==> r == Ok(StyleVectors(entries, styles))
      ensures CacheStep(old(entries), styles, env).failure.Some? ==> r == Err(CacheStep(old(entries), styles, env).failure.value)
    {
      var toEmbed: seq<string> := [];
      for i := 0 to |styles|
        invariant toEmbed == Missing(styles[..i], entries)
      {
        assert styles[..i + 1][..i] == styles[..i];
        if styles[i] !in entries {
          toEmbed := toEmbed + [styles[i]];
        }
      }
      assert styles[..|styles|] == styles;
      if toEmbed != [] {
        var embedded := env.embed(toEmbed);
        if embedded.None? {
          return Err(EmbeddingFailed);
        }
        var vs := embedded.value;
        ghost var before := entries;
        for i := 0 to |toEmbed|
          invariant i <= |vs|
          invariant entries == Filled(before, toEmbed[..i], vs[..i])
        {
          if i == |vs| {
            assert vs[..i] == vs;
            return Err(EmbeddingTooShort);
          }
          assert toEmbed[..i + 1][..i] == toEmbed[..i] && vs[..i + 1][..i] == vs[..i];
          entries := entries[toEmbed[i] := vs[i]];
        }
        assert toEmbed[..|toEmbed|] == toEmbed && vs[..|toEmbed|][..|toEmbed|] == vs[..|toEmbed|];
      }
      r := Ok(StyleVectors(entries, styles));
    }
  }

  /** The inner loop: running maximum over the styles for one answer. */
  method BestStyle(styles: seq<string>, styleVecs: seq<Vector>, answerVec: Vector, sqrt: real -> real)
    returns (maxSimilarity: real, bestStyle: string)
    requires |styles| == |styleVecs|
    ensures (maxSimilarity, bestStyle) == BestMatch(styles, StyleSims(styleVecs, answerVec, sqrt))
  {
    ghost var sims := StyleSims(styleVecs, answerVec, sqrt);
    maxSimilarity, bestStyle := 0.0, "";
    for j := 0 to |styles|
      invariant (maxSimilarity, bestStyle) == BestMatch(styles[..j], sims[..j])
    {
      assert styles[..j + 1][..j] == styles[..j] && sims[..j + 1][..j] == sims[..j];
      var similarity := Cosine(styleVecs[j], answerVec, sqrt);
      if similarity > maxSimilarity {
        maxSimilarity := similarity;
        bestStyle := styles[j];
      }
    }
    assert styles[..|styles|] == styles && sims[..|sims|] == sims;
  }

  /** The per-answer loop of indicator A. */
  method KeywordRows(qa: seq<QaEntry>, keywordVec: Vector, answerVecs: seq<Vector>, sqrt: real -> real)
    returns (scores: seq<real>, details: seq<Detail>)
    requires |answerVecs| == |qa|
    ensures scores == KeywordSims(keywordVec, answerVecs, sqrt)
    ensures details == KeywordDetails(qa, scores)
  {
    ghost var sims := KeywordSims(keywordVec, answerVecs, sqrt);
    scores, details := [], [];
    for i := 0 to |qa|
      invariant scores == sims[..i]
      invariant details == KeywordDetails(qa, sims)[..i]
    {
      var similarity := Cosine(keywordVec, answerVecs[i], sqrt);
      scores := scores + [similarity];
      details := details + [KeywordDetail(qa[i].question, Preview(qa[i].answer), Round3(similarity))];
    }
  }

  /** The per-answer loop of indicators B-E. */
  method StyleRows(qa: seq<QaEntry>, styles: seq<string>, styleVecs: seq<Vector>, answerVecs: seq<Vector>,
                   sqrt: real -> real)
    returns (scores: seq<real>, details: seq<Detail>)
    requires |styles| == |styleVecs| && |answerVecs| == |qa|
    ensures scores == Firsts(StyleBest(styles, styleVecs, answerVecs, sqrt))
    ensures details == StyleDetails(qa, StyleBest(styles, styleVecs, answerVecs, sqrt))
  {
    ghost var best := StyleBest(styles, styleVecs, answerVecs, sqrt);
    scores, details := [], [];
    for i := 0 to |qa|
      invariant scores == Firsts(best)[..i]
      invariant details == StyleDetails(qa, best)[..i]
    {
      var maxSimilarity, bestStyle := BestStyle(styles, styleVecs, answerVecs[i], sqrt);
      assert (maxSimilarity, bestStyle) == best[i];
      assert Firsts(best)[..i + 1] == Firsts(best)[..i] + [maxSimilarity];
      assert StyleDetails(qa, best)[..i + 1] == StyleDetails(qa, best)[..i] + [StyleDetail(qa[i].question, Preview(qa[i].answer), bestStyle, Round3(maxSimilarity))];
      scores := scores + [maxSimilarity];
      details := details + [StyleDetail(qa[i].question, Preview(qa[i].answer), bestStyle, Round3(maxSimilarity))];
    }
  }

  /**
   * `calculate_indicator_score`. A null cache stands for the source's `None`:
   * a fresh dict is used and dropped. Otherwise the caller's cache is filled.
   */
  method CalculateIndicatorScore(a: Applicant, professorId: string, ind: Indicator, cache: StyleCache?, env: Env)
    returns (r: Result<IndicatorScore, Error>)
    modifies cache
    ensures r == IndicatorSpec(a, professorId, ind, if cache == null then map[] else old(cache.entries), env).0
    ensures cache != null ==> cache.entries == IndicatorSpec(a, professorId, ind, old(cache.entries), env).1
  {
    var qa := QaEntries(env.catalog, professorId, Name(ind));
    if qa == [] {
      return Ok(IndicatorScore(ind, 0, [], 0));
    }
    var scores: seq<real>;
    var details: seq<Detail>;
    if ind == A {
      var embedded := EmbedTexts(env, [a.interestKeyword] + Answers(qa));
      if embedded.Err? {
        return Err(embedded.error);
      }
      scores, details := KeywordRows(qa, embedded.value[0], embedded.value[1..], env.sqrt);
    } else {
      var styles := StyleTerms(a.learningStyles);
      if styles == [] {
        return Ok(IndicatorScore(ind, 0, [], |qa|));
      }
      var c := cache;
      if c == null {
        c := new StyleCache();
      }
      var styleVecs := c.Fill(styles, env);
      if styleVecs.Err? {
        return Err(styleVecs.error);
      }
      var embedded := EmbedTexts(env, Answers(qa));
      if embedded.Err? {
        return Err(embedded.error);
      }
      scores, details := StyleRows(qa, styles, styleVecs.value, embedded.value, env.sqrt);
    }
    var avg := Sum(scores) / |scores| as real;
    r := Ok(IndicatorScore(ind, RemapIndicator(professorId, avg), details, |qa|));
  }

  // ---------------------------------------------------------------------------
  // Properties

  /**
   * The remapped score lies in the professor's lane, is pinned to the lane's
   * ends outside [0.15, 0.4], and in between the final clamp never acts.
   */
  lemma RemapCases(professorId: string, avg: real)
    ensures LaneFloor(professorId) <= RemapIndicator(professorId, avg) <= LaneCeiling(professorId)
    ensures avg <= 0.15 ==> RemapIndicator(professorId, avg) == LaneFloor(professorId)
    ensures avg >= 0.4 ==> RemapIndicator(professorId, avg) == LaneCeiling(professorId)
    ensures 0.15 < avg < 0.4 && professorId == BoostedProfessor ==>
      RemapIndicator(professorId, avg) == RoundHalfEven(LinearLane(avg))
    ensures 0.15 < avg < 0.4 && professorId != BoostedProfessor ==>
      RemapIndicator(professorId, avg) == RoundHalfEven(SquaredLane(avg))
  {
    if 0.15 < avg < 0.4 {
      var n := Normalized(avg);
      assert 0.0 < n < 1.0;
      if professorId == BoostedProfessor {
        RoundBetween(LinearLane(avg), 80, 95);
      } else {
        SqMono(n, 1.0);
        assert 0.0 <= n * n <= 1.0 by { MulMono(0.0, n, n); }
        RoundBetween(SquaredLane(avg), 60, 90);
      }
    }
  }

  /** A higher mean similarity never gives a lower indicator score. */
  lemma RemapMonotone(professorId: string, x: real, y: real)
    requires x <= y
    ensures RemapIndicator(professorId, x) <= RemapIndicator(professorId, y)
  {
    if x <= 0.15 || 0.4 <= y {
      RemapCases(professorId, x);
      RemapCases(professorId, y);
    } else if professorId == BoostedProfessor {
      LinearLaneMonotone(x, y);
    } else {
      SquaredLaneMonotone(professorId, x, y);
    }
  }

  lemma LinearLaneMonotone(x: real, y: real)
    requires 0.15 < x <= y < 0.4
    ensures RawIndicatorScore(BoostedProfessor, x) <= RawIndicatorScore(BoostedProfessor, y)
  {
    RoundMonotone(LinearLane(x), LinearLane(y));
  }

  lemma SquaredLaneMonotone(professorId: string, x: real, y: real)
    requires professorId != BoostedProfessor && 0.15 < x <= y < 0.4
    ensures RawIndicatorScore(professorId, x) <= RawIndicatorScore(professorId, y)
  {
    SqMono(Normalized(x), Normalized(y));
    MulMono(Normalized(x) * Normalized(x), Normalized(y) * Normalized(y), 30.0);
    assert SquaredLane(x) <= SquaredLane(y);
    RoundMonotone(SquaredLane(x), SquaredLane(y));
  }

  /**
   * The inner loop finds max(0, max sims) and the earliest style reaching it
   * when it is positive; with no positive similarity the style stays "".
   */
  lemma {:induction false} BestMatchSpec(styles: seq<string>, sims: seq<real>)
    requires |styles| == |sims|
    ensures 0.0 <= BestMatch(styles, sims).0
    ensures forall j :: 0 <= j < |sims| ==> sims[j] <= BestMatch(styles, sims).0
    ensures BestMatch(styles, sims).0 == 0.0 ==> BestMatch(styles, sims).1 == ""
    ensures BestMatch(styles, sims).0 > 0.0 ==>
      exists j :: 0 <= j < |sims| && sims[j] == BestMatch(styles, sims).0 && styles[j] == BestMatch(styles, sims).1
        && forall k :: 0 <= k < j ==> sims[k] < sims[j]
    decreases |sims|
  {
    if sims != [] {
      var n := |sims| - 1;
      BestMatchSpec(styles[..n], sims[..n]);
      var prev := BestMatch(styles[..n], sims[..n]);
      assert forall j :: 0 <= j < n ==> sims[..n][j] == sims[j];
      if sims[n] > prev.0 {
        assert forall k :: 0 <= k < n ==> sims[k] < sims[n];
      } else if prev.0 > 0.0 {
        var j :| 0 <= j < n && sims[..n][j] == prev.0 && styles[..n][j] == prev.1
          && forall k :: 0 <= k < j ==> sims[..n][k] < sims[..n][j];
        assert sims[j] == prev.0 && styles[j] == prev.1;
      }
    }
  }

  /** Only the styles missing from the cache are embedded: the step reads the service at that list alone. */
  lemma CacheStepOnlyEmbedsMissing(cache: map<string, Vector>, styles: seq<string>, env1: Env, env2: Env)
    requires env1.embed(Missing(styles, cache)) == env2.embed(Missing(styles, cache))
    ensures CacheStep(cache, styles, env1) == CacheStep(cache, styles, env2)
  {
  }

  /** The missing list holds exactly the requested styles that are not cached. */
  lemma {:induction false} MissingMembers(styles: seq<string>, cache: map<string, Vector>)
    ensures forall s :: s in Missing(styles, cache) <==> s in styles && s !in cache
    decreases |styles|
  {
    if styles != [] {
      var n := |styles| - 1;
      assert styles == styles[..n] + [styles[n]];
      MissingMembers(styles[..n], cache);
    }
  }

  /** Filling adds exactly the given keys and leaves every other cached vector alone. */
  lemma {:induction false} FilledKeys(cache: map<string, Vector>, keys: seq<string>, vs: seq<Vector>)
    requires |keys| == |vs|
    ensures forall k :: k in Filled(cache, keys, vs) <==> k in cache || k in keys
    ensures forall k :: k in cache && k !in keys ==> Filled(cache, keys, vs)[k] == cache[k]
    decreases |keys|
  {
    if keys != [] {
      var n := |keys| - 1;
      assert keys == keys[..n] + [keys[n]];
      FilledKeys(cache, keys[..n], vs[..n]);
    }
  }

  /**
   * A cache step never forgets or changes a cached vector, adds only the
   * requested styles, and on success holds every requested style.
   */
  lemma CacheStepGrows(cache: map<string, Vector>, styles: seq<string>, env: Env)
    ensures forall k :: k in cache ==>
      k in CacheStep(cache, styles, env).entries && CacheStep(cache, styles, env).entries[k] == cache[k]
    ensures forall k :: k in CacheStep(cache, styles, env).entries ==> k in cache || k in styles
    ensures CacheStep(cache, styles, env).failure.None? ==> forall s :: s in styles ==> s in CacheStep(cache, styles, env).entries
  {
    var missing := Missing(styles, cache);
    MissingMembers(styles, cache);
    if missing != [] && env.embed(missing).Some? {
      var vs := env.embed(missing).value;
      if |vs| < |missing| {
        FilledKeys(cache, missing[..|vs|], vs);
        assert forall k :: k in missing[..|vs|] ==> k in missing;
      } else {
        FilledKeys(cache, missing, vs[..|missing|]);
      }
    }
  }

  /** When every style is already cached the step embeds nothing and leaves the cache as it was. */
  lemma CacheStepPrefilled(cache: map<string, Vector>, styles: seq<string>, env: Env)
    requires forall s :: s in styles ==> s in cache
    ensures CacheStep(cache, styles, env) == CacheOutcome(None, cache)
  {
    MissingNone(styles, cache);
  }

  /** No style is missing from a cache that holds them all. */
  lemma {:induction false} MissingNone(styles: seq<string>, cache: map<string, Vector>)
    requires forall s :: s in styles ==> s in cache
    ensures Missing(styles, cache) == []
    decreases |styles|
  {
    if styles != [] {
      var n := |styles| - 1;
      assert styles[n] in styles;
      assert forall s :: s in styles[..n] ==> s in styles;
      MissingNone(styles[..n], cache);
    }
  }

  /** With every style cached, a whole scorer call leaves the cache unchanged. */
  lemma IndicatorKeepsPrefilledCache(a: Applicant, professorId: string, ind: Indicator, cache: map<string, Vector>, env: Env)
    requires forall s :: s in StyleTerms(a.learningStyles) ==> s in cache
    ensures IndicatorSpec(a, professorId, ind, cache, env).1 == cache
  {
    CacheStepPrefilled(cache, StyleTerms(a.learningStyles), env);
  }

  /** A successful score is labelled with the indicator asked for. */
  lemma ScoredIndicator(a: Applicant, professorId: string, ind: Indicator, cache: map<string, Vector>, env: Env)
    ensures var r := IndicatorSpec(a, professorId, ind, cache, env).0;
      r.Ok? ==> r.value.indicator == ind
  {
  }

  /** No QA entries, or B-E without styles: score 0 and no details. */
  lemma IndicatorZero(a: Applicant, professorId: string, ind: Indicator, cache: map<string, Vector>, env: Env)
    requires QaEntries(env.catalog, professorId, Name(ind)) == [] || (ind != A && StyleTerms(a.learningStyles) == [])
    ensures var r := IndicatorSpec(a, professorId, ind, cache, env).0;
      r.Ok? && r.value.score == 0 && r.value.details == []
  {
  }

  /**
   * The shape of a successful result: it names its indicator and counts the
   * professor's QA entries. With no entries, or with no learning styles for
   * B-E, the score is 0 without details; otherwise there is one detail per
   * entry and the score lies in the professor's lane.
   */
  lemma IndicatorShape(a: Applicant, professorId: string, ind: Indicator, cache: map<string, Vector>, env: Env)
    ensures var r := IndicatorSpec(a, professorId, ind, cache, env).0;
      var qa := QaEntries(env.catalog, professorId, Name(ind));
      r.Ok? ==>
        && r.value.indicator == ind
        && r.value.qaCount == |qa|
        && (qa == [] || (ind != A && StyleTerms(a.learningStyles) == []) ==> r.value.score == 0 && r.value.details == [])
        && (qa != [] && (ind == A || StyleTerms(a.learningStyles) != []) ==>
              LaneFloor(professorId) <= r.value.score <= LaneCeiling(professorId) && |r.value.details| == |qa|)
  {
    var qa := QaEntries(env.catalog, professorId, Name(ind));
    if qa != [] {
      if ind == A {
        var e := EmbedTexts(env, [a.interestKeyword] + Answers(qa));
        if e.Ok? {
          RemapCases(professorId, Mean(KeywordSims(e.value[0], e.value[1..], env.sqrt)));
        }
      } else if StyleTerms(a.learningStyles) != [] {
        var styles := StyleTerms(a.learningStyles);
        var step := CacheStep(cache, styles, env);
        var e := EmbedTexts(env, Answers(qa));
        if step.failure.None? && e.Ok? {
          RemapCases(professorId, Mean(Firsts(StyleBest(styles, StyleVectors(step.entries, styles), e.value, env.sqrt))));
        }
      }
    }
  }

  /**
   * For B-E each recorded detail carries the question and the style the inner
   * loop chose for that answer, and the score is the remapped mean of the
   * per-answer best similarities.
   */
  lemma StyleScoreRows(ind: Indicator, professorId: string, qa: seq<QaEntry>, styles: seq<string>,
                       styleVecs: seq<Vector>, env: Env, i: int)
    requires qa != [] && |styles| == |styleVecs|
    requires StyleScore(ind, professorId, qa, styles, styleVecs, env).Ok?
    requires 0 <= i < |qa|
    ensures var r := StyleScore(ind, professorId, qa, styles, styleVecs, env).value;
      var avs := EmbedTexts(env, Answers(qa)).value;
      var best := BestMatch(styles, StyleSims(styleVecs, avs[i], env.sqrt));
      && r.score == RemapIndicator(professorId, Mean(Firsts(StyleBest(styles, styleVecs, avs, env.sqrt))))
      && r.details[i] == StyleDetail(qa[i].question, Preview(qa[i].answer), best.1, Round3(best.0))
      && 0.0 <= best.0
      && (forall j :: 0 <= j < |styles| ==> Cosine(styleVecs[j], avs[i], env.sqrt) <= best.0)
  {
    var avs := EmbedTexts(env, Answers(qa)).value;
    var sims := StyleSims(styleVecs, avs[i], env.sqrt);
    BestMatchSpec(styles, sims);
    assert forall j :: 0 <= j < |styles| ==> sims[j] == Cosine(styleVecs[j], avs[i], env.sqrt);
  }
}
