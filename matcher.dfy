/**
 * Matching an applicant against every professor (matching.py
 * `match_all_professors`): resolve the professor ids, embed the learning
 * styles once into a shared cache, score each professor with that cache
 * (a professor whose scoring raises gets a fixed fallback record), and sort
 * the records by total score, highest first.
 *
 * The source scores the professors on a thread pool. Every call finds all
 * styles already cached and so leaves the shared cache as it is
 * (`ScoringLeavesSharedCache`); the calls are therefore independent, and the
 * model scores them one after another.
 */
module Matcher {
  import opened Wrappers
  import opened Similarity
  import opened Catalog
  import opened Services
  import opened Indicators
  import opened Aggregate

  /** The record for a professor whose scoring raised. */
  function Fallback(professorId: string): MatchResult {
    MatchResult(professorId, 70, [], Breakdown(70, 70, 70, 70, 70))
  }

  /** The pre-pass: all styles (repeats included) embedded in one call and stored in order. */
  function Prefill(styles: seq<string>, env: Env): Result<map<string, Vector>, Error> {
    if styles == [] then Ok(map[])
    else match EmbedTexts(env, styles)
      case Err(e) => Err(e)
      case Ok(vs) => Ok(Filled(map[], styles, vs))
  }

  /** One professor's record: the matching result, or the fallback when scoring fails. */
  function PerProfessor(a: Applicant, professorId: string, cache: map<string, Vector>, env: Env): MatchResult {
    match MatchingSpec(a, professorId, Some(cache), env).0
    case Ok(m) => m
    case Err(_) => Fallback(professorId)
  }

  function MapIds(f: string -> MatchResult, ids: seq<string>): (r: seq<MatchResult>)
    ensures |r| == |ids|
  {
    seq(|ids|, i requires 0 <= i < |ids| => f(ids[i]))
  }

  /** The per-professor records in submission order. */
  function PerProfessors(a: Applicant, ids: seq<string>, cache: map<string, Vector>, env: Env): (r: seq<MatchResult>)
    ensures |r| == |ids|
  {
    MapIds(id => PerProfessor(a, id, cache, env), ids)
  }

  function IdsOf(results: seq<MatchResult>): (r: seq<string>)
    ensures |r| == |results|
  {
    if results == [] then [] else [results[0].professorId] + IdsOf(results[1..])
  }

  predicate SortedDesc(results: seq<MatchResult>) {
    forall i, j :: 0 <= i < j < |results| ==> results[i].totalScore >= results[j].totalScore
  }

  /** Insert before the first record that does not score higher, so earlier records stay first among equals. */
  function Insert(x: MatchResult, sorted: seq<MatchResult>): (r: seq<MatchResult>)
    ensures |r| == |sorted| + 1
  {
    if sorted == [] then [x]
    else if x.totalScore >= sorted[0].totalScore then [x] + sorted
    else [sorted[0]] + Insert(x, sorted[1..])
  }

  /** `results.sort(key=total_score, reverse=True)`: a stable sort, highest total first. */
  function SortDesc(results: seq<MatchResult>): (r: seq<MatchResult>)
    ensures |r| == |results|
  {
    if results == [] then [] else Insert(results[0], SortDesc(results[1..]))
  }

  lemma {:induction false} InsertSorted(x: MatchResult, sorted: seq<MatchResult>)
    requires SortedDesc(sorted)
    ensures SortedDesc(Insert(x, sorted))
    ensures Insert(x, sorted) != [] && (Insert(x, sorted)[0] == x || (sorted != [] && Insert(x, sorted)[0] == sorted[0]))
  {
    if sorted != [] && x.totalScore < sorted[0].totalScore {
      InsertSorted(x, sorted[1..]);
    }
  }

  lemma {:induction false} InsertPermutes(x: MatchResult, sorted: seq<MatchResult>)
    ensures multiset(Insert(x, sorted)) == multiset(sorted) + multiset{x}
  {
    if sorted != [] && x.totalScore < sorted[0].totalScore {
      InsertPermutes(x, sorted[1..]);
      assert sorted == [sorted[0]] + sorted[1..];
    }
  }

  lemma {:induction false} InsertIds(x: MatchResult, sorted: seq<MatchResult>)
    ensures multiset(IdsOf(Insert(x, sorted))) == multiset(IdsOf(sorted)) + multiset{x.professorId}
  {
    if sorted == [] || x.totalScore >= sorted[0].totalScore {
      InsertFirstIds(x, sorted);
    } else {
      InsertIds(x, sorted[1..]);
      InsertLaterIds(x, sorted);
    }
  }

  lemma InsertFirstIds(x: MatchResult, sorted: seq<MatchResult>)
    requires sorted == [] || x.totalScore >= sorted[0].totalScore
    ensures multiset(IdsOf(Insert(x, sorted))) == multiset(IdsOf(sorted)) + multiset{x.professorId}
  {
    assert Insert(x, sorted) == [x] + sorted;
    IdsOfCons(x, sorted);
  }

  lemma InsertLaterIds(x: MatchResult, sorted: seq<MatchResult>)
    requires sorted != [] && x.totalScore < sorted[0].totalScore
    requires multiset(IdsOf(Insert(x, sorted[1..]))) == multiset(IdsOf(sorted[1..])) + multiset{x.professorId}
    ensures multiset(IdsOf(Insert(x, sorted))) == multiset(IdsOf(sorted)) + multiset{x.professorId}
  {
    assert Insert(x, sorted) == [sorted[0]] + Insert(x, sorted[1..]);
    ConsIds(sorted[0], Insert(x, sorted[1..]), sorted[1..], x.professorId);
    assert [sorted[0]] + sorted[1..] == sorted;
  }

  lemma ConsIds(y: MatchResult, longer: seq<MatchResult>, shorter: seq<MatchResult>, id: string)
    requires multiset(IdsOf(longer)) == multiset(IdsOf(shorter)) + multiset{id}
    ensures multiset(IdsOf([y] + longer)) == multiset(IdsOf([y] + shorter)) + multiset{id}
  {
    IdsOfCons(y, longer);
    IdsOfCons(y, shorter);
  }

  lemma IdsOfCons(x: MatchResult, rest: seq<MatchResult>)
    ensures IdsOf([x] + rest) == [x.professorId] + IdsOf(rest)
  {
    assert ([x] + rest)[1..] == rest;
  }

  /** The sort orders the records from highest total to lowest ... */
  lemma {:induction false} SortDescSorted(results: seq<MatchResult>)
    ensures SortedDesc(SortDesc(results))
  {
    if results != [] {
      SortDescSorted(results[1..]);
      InsertSorted(results[0], SortDesc(results[1..]));
    }
  }

  /** ... and only rearranges them ... */
  lemma {:induction false} SortDescPermutes(results: seq<MatchResult>)
    ensures multiset(SortDesc(results)) == multiset(results)
  {
    if results != [] {
      SortDescPermutes(results[1..]);
      InsertPermutes(results[0], SortDesc(results[1..]));
      assert results == [results[0]] + results[1..];
    }
  }

  /** ... so the professor ids come out as a rearrangement of those that went in. */
  lemma {:induction false} SortDescIds(results: seq<MatchResult>)
    ensures multiset(IdsOf(SortDesc(results))) == multiset(IdsOf(results))
  {
    if results != [] {
      SortDescIds(results[1..]);
      InsertIds(results[0], SortDesc(results[1..]));
    }
  }

  /** The whole run for a resolved list of professor ids. */
  function MatchAllSpec(a: Applicant, ids: seq<string>, env: Env): Result<seq<MatchResult>, Error> {
    match Prefill(StyleTerms(a.learningStyles), env)
    case Err(e) => Err(e)
    case Ok(cache) =>
      if ids == [] then Err(NoWorkers)
      else Ok(SortDesc(PerProfessors(a, ids, cache, env)))
  }

  /** `list(set(item["professor_id"] for item in data))`, in some order without repeats. */
  ghost predicate Enumerates(ids: seq<string>, s: set<string>) {
    && (forall i, j :: 0 <= i < j < |ids| ==> ids[i] != ids[j])
    && (forall p :: p in ids <==> p in s)
  }

  method ResolveProfessorIds(professorIds: Option<seq<string>>, env: Env) returns (r: Result<seq<string>, Error>)
    ensures professorIds.Some? ==> r == Ok(professorIds.value)
    ensures professorIds.None? && CatalogProfessorIds(env.catalog).Err? ==> r == Err(MissingKey("professor_id"))
    ensures professorIds.None? && CatalogProfessorIds(env.catalog).Ok? ==>
      r.Ok? && Enumerates(r.value, CatalogProfessorIds(env.catalog).value)
  {
    if professorIds.Some? {
      return Ok(professorIds.value);
    }
    var found := CatalogProfessorIds(env.catalog);
    if found.Err? {
      return Err(MissingKey(found.error));
    }
    var remaining := found.value;
    var ids: seq<string> := [];
    while remaining != {}
      invariant forall i, j :: 0 <= i < j < |ids| ==> ids[i] != ids[j]
      invariant forall p :: p in ids ==> p !in remaining
      invariant forall p :: p in found.value <==> p in ids || p in remaining
      invariant remaining <= found.value
      decreases remaining
    {
      var p :| p in remaining;
      ids := ids + [p];
      remaining := remaining - {p};
    }
    r := Ok(ids);
  }

  /** The pre-pass into a fresh shared cache. */
  method PrefillCache(styles: seq<string>, env: Env) returns (r: Result<StyleCache, Error>)
    ensures Prefill(styles, env).Err? ==> r == Err(Prefill(styles, env).error)
    ensures Prefill(styles, env).Ok? ==> r.Ok? && fresh(r.value) && r.value.entries == Prefill(styles, env).value
  {
    var cache := new StyleCache();
    if styles != [] {
      var embedded := EmbedTexts(env, styles);
      if embedded.Err? {
        return Err(embedded.error);
      }
      var vs := embedded.value;
      for i := 0 to |styles|
        invariant cache.entries == Filled(map[], styles[..i], vs[..i])
      {
        assert styles[..i + 1][..i] == styles[..i] && vs[..i + 1][..i] == vs[..i];
        cache.entries := cache.entries[styles[i] := vs[i]];
      }
      assert styles[..|styles|] == styles && vs[..|vs|] == vs;
    }
    r := Ok(cache);
  }

  /** Score every professor with the shared cache, falling back for those whose scoring fails. */
  method ScoreProfessors(a: Applicant, ids: seq<string>, cache: StyleCache, env: Env) returns (results: seq<MatchResult>)
    requires forall s :: s in StyleTerms(a.learningStyles) ==> s in cache.entries
    modifies cache
    ensures results == PerProfessors(a, ids, old(cache.entries), env)
    ensures cache.entries == old(cache.entries)
  {
    ghost var shared := cache.entries;
    results := [];
    for i := 0 to |ids|
      invariant cache.entries == shared
      invariant results == PerProfessors(a, ids[..i], shared, env)
    {
      MatchingKeepsPrefilledCache(a, ids[i], shared, env);
      var m := CalculateMatchingScore(a, ids[i], cache, env);
      var record := if m.Ok? then m.value else Fallback(ids[i]);
      assert record == PerProfessor(a, ids[i], shared, env);
      PerProfessorsSnoc(a, ids, i, shared, env);
      results := results + [record];
    }
    assert ids[..|ids|] == ids;
  }

  /**
   * `match_all_professors`. `used` is the list of professor ids the run
   * scored: the given list, or an order of the catalog's distinct ids.
   */
  method MatchAll(a: Applicant, professorIds: Option<seq<string>>, env: Env)
    returns (r: Result<seq<MatchResult>, Error>, ghost used: seq<string>)
    ensures professorIds.Some? ==> used == professorIds.value && r == MatchAllSpec(a, used, env)
    ensures professorIds.None? && CatalogProfessorIds(env.catalog).Err? ==> r == Err(MissingKey("professor_id"))
    ensures professorIds.None? && CatalogProfessorIds(env.catalog).Ok? ==>
      Enumerates(used, CatalogProfessorIds(env.catalog).value) && r == MatchAllSpec(a, used, env)
  {
    var ids := ResolveProfessorIds(professorIds, env);
    if ids.Err? {
      return Err(ids.error), [];
    }
    var resolved := ids.value;
    used := resolved;
    var styles := StyleTerms(a.learningStyles);
    var cache := PrefillCache(styles, env);
    if cache.Err? {
      return Err(cache.error), used;
    }
    if |resolved| == 0 {
      return Err(NoWorkers), used;
    }
    PrefillCovers(styles, env);
    var results := ScoreProfessors(a, resolved, cache.value, env);
    r := Ok(SortDesc(results));
  }

  // ---------------------------------------------------------------------------
  // Properties

  lemma {:induction false} IdsOfMap(f: string -> MatchResult, ids: seq<string>)
    requires forall id :: f(id).professorId == id
    ensures IdsOf(MapIds(f, ids)) == ids
  {
    if ids != [] {
      IdsOfMap(f, ids[1..]);
      assert MapIds(f, ids)[1..] == MapIds(f, ids[1..]);
    }
  }

  lemma MapIdsSnoc(f: string -> MatchResult, ids: seq<string>, i: nat)
    requires i < |ids|
    ensures MapIds(f, ids[..i + 1]) == MapIds(f, ids[..i]) + [f(ids[i])]
  {
  }

  /** A record, matched or fallback, names the professor it was computed for. */
  lemma PerProfessorId(a: Applicant, professorId: string, cache: map<string, Vector>, env: Env)
    ensures PerProfessor(a, professorId, cache, env).professorId == professorId
  {
    MatchResultShape(a, professorId, Some(cache), env);
  }

  lemma IdsOfPerProfessors(a: Applicant, ids: seq<string>, cache: map<string, Vector>, env: Env)
    ensures IdsOf(PerProfessors(a, ids, cache, env)) == ids
  {
    var f := id => PerProfessor(a, id, cache, env);
    forall id ensures f(id).professorId == id {
      PerProfessorId(a, id, cache, env);
    }
    IdsOfMap(f, ids);
  }

  lemma PerProfessorsSnoc(a: Applicant, ids: seq<string>, i: nat, cache: map<string, Vector>, env: Env)
    requires i < |ids|
    ensures PerProfessors(a, ids[..i + 1], cache, env) == PerProfessors(a, ids[..i], cache, env) + [PerProfessor(a, ids[i], cache, env)]
  {
    MapIdsSnoc(id => PerProfessor(a, id, cache, env), ids, i);
  }

  /** The pre-pass caches every learning style. */
  lemma PrefillCovers(styles: seq<string>, env: Env)
    ensures Prefill(styles, env).Ok? ==> forall s :: s in styles ==> s in Prefill(styles, env).value
  {
    if styles != [] && EmbedTexts(env, styles).Ok? {
      FilledKeys(map[], styles, EmbedTexts(env, styles).value);
    }
  }

  /**
   * Every professor's scoring leaves the shared cache as the pre-pass left it,
   * so no call sees another's writes and the order of the calls is immaterial.
   */
  lemma ScoringLeavesSharedCache(a: Applicant, professorId: string, env: Env)
    requires Prefill(StyleTerms(a.learningStyles), env).Ok?
    ensures var cache := Prefill(StyleTerms(a.learningStyles), env).value;
      MatchingSpec(a, professorId, Some(cache), env).1 == Some(cache)
  {
    PrefillCovers(StyleTerms(a.learningStyles), env);
    MatchingKeepsPrefilledCache(a, professorId, Prefill(StyleTerms(a.learningStyles), env).value, env);
  }

  /**
   * A successful run returns one record per professor id, sorted by total
   * score from highest to lowest, and is a rearrangement of the per-professor
   * records.
   */
  lemma MatchAllResults(a: Applicant, ids: seq<string>, env: Env)
    ensures var r := MatchAllSpec(a, ids, env);
      r.Ok? ==>
        && SortedDesc(r.value)
        && multiset(IdsOf(r.value)) == multiset(ids)
        && multiset(r.value) == multiset(PerProfessors(a, ids, Prefill(StyleTerms(a.learningStyles), env).value, env))
  {
    var p := Prefill(StyleTerms(a.learningStyles), env);
    if p.Ok? && ids != [] {
      var per := PerProfessors(a, ids, p.value, env);
      SortDescSorted(per);
      SortDescPermutes(per);
      SortDescIds(per);
      IdsOfPerProfessors(a, ids, p.value, env);
    }
  }

  /** The run fails exactly when the ids, the pre-pass or the worker count fail; no professor's failure stops it. */
  lemma MatchAllFailures(a: Applicant, ids: seq<string>, env: Env)
    ensures MatchAllSpec(a, ids, env).Err? <==> Prefill(StyleTerms(a.learningStyles), env).Err? || ids == []
    ensures Prefill(StyleTerms(a.learningStyles), env).Ok? && ids == [] ==> MatchAllSpec(a, ids, env) == Err(NoWorkers)
  {
  }

  /** Every record's total lies in [70, 89], and in [70, 88] for a professor other than the boosted one. */
  lemma MatchAllBounds(a: Applicant, ids: seq<string>, env: Env)
    ensures var r := MatchAllSpec(a, ids, env);
      r.Ok? ==> forall i :: 0 <= i < |r.value| ==>
        70 <= r.value[i].totalScore <= TotalCeiling(r.value[i].professorId)
  {
    var p := Prefill(StyleTerms(a.learningStyles), env);
    if p.Ok? && ids != [] {
      var per := PerProfessors(a, ids, p.value, env);
      forall j | 0 <= j < |per|
        ensures 70 <= per[j].totalScore <= TotalCeiling(per[j].professorId)
      {
        MatchResultShape(a, ids[j], Some(p.value), env);
      }
      var sorted := SortDesc(per);
      SortDescPermutes(per);
      forall i | 0 <= i < |sorted|
        ensures 70 <= sorted[i].totalScore <= TotalCeiling(sorted[i].professorId)
      {
        assert sorted[i] in multiset(per);
      }
    }
  }
}
