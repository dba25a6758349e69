/**
 * Retrieval-augmented answering (chat.py `generate_answer`, `format_context`):
 * decide whether the question asks for an introduction, search the vector
 * index, split the matches into profile and QA matches, add extra profile
 * matches for introduction questions, pick the matches that form the
 * context, format it, ask the language model, and list references.
 *
 * The vector search, the professor-name lookup and the language model are
 * parameters; a search or a model call that raises yields `None`.
 */
module Rag {
  import opened Wrappers
  import opened PyStr

  type Metadata = map<string, string>

  datatype SearchMatch = SearchMatch(metadata: Metadata, score: real)

  datatype RagEnv = RagEnv(
    /** `search_similar_chunks(query, top_k, professor_id)` */
    search: (string, int, Option<string>) -> Option<seq<SearchMatch>>,
    /** `get_professor_name`, including its "교수님" default */
    professorName: string -> string,
    /** the chat completion, given the professor name (if any), the context and the question */
    complete: (Option<string>, string, string) -> Option<string>)

  datatype Answer = Answer(answer: string, references: seq<string>)

  const IntroKeywords: seq<string> := ["자기소개", "소개", "프로필", "경력", "학력", "어떤 분"]
  const NotFound := "관련 정보를 찾을 수 없습니다."

  /** `metadata.get(key, default)` */
  function Get(md: Metadata, key: string, default: string): string {
    if key in md then md[key] else default
  }

  /** `metadata.get("type")`, with an absent type read as "" (it equals neither "qa" nor "profile"). */
  function TypeOf(m: SearchMatch): string { Get(m.metadata, "type", "") }

  /** `metadata.get("chunk_id")`, which is `None` when absent. */
  function ChunkIdOf(m: SearchMatch): Option<string> {
    if "chunk_id" in m.metadata then Some(m.metadata["chunk_id"]) else None
  }

  /** `any(k in question for k in keys)` */
  function AnyContained(question: string, keys: seq<string>): (r: bool)
    ensures r <==> exists i :: 0 <= i < |keys| && Contains(question, keys[i])
  {
    if keys == [] then false
    else Contains(question, keys[0]) || AnyContained(question, keys[1..])
  }

  predicate IsIntroQuestion(question: string) {
    AnyContained(question, IntroKeywords)
  }

  /** How many matches to fetch: at least 10 and three times `top_k` for an introduction question. */
  function SearchK(topK: int, intro: bool): (r: int)
    ensures intro ==> r >= 10 && r >= 3 * topK && (r == 10 || r == 3 * topK)
    ensures !intro ==> r == topK
  {
    if intro then (if topK * 3 >= 10 then topK * 3 else 10) else topK
  }

  /** `[m for m in matches if m.metadata.get("type") == t]` */
  function OfType(matches: seq<SearchMatch>, t: string): (r: seq<SearchMatch>)
    ensures |r| <= |matches|
    ensures forall m :: m in r <==> m in matches && TypeOf(m) == t
  {
    if matches == [] then []
    else
      var rest := OfType(matches[1..], t);
      assert forall m :: m in matches <==> m == matches[0] || m in matches[1..];
      if TypeOf(matches[0]) == t then [matches[0]] + rest else rest
  }

  function ChunkIds(matches: seq<SearchMatch>): (r: set<Option<string>>)
    ensures forall c :: c in r <==> exists i :: 0 <= i < |matches| && ChunkIdOf(matches[i]) == c
  {
    if matches == [] then {}
    else
      var rest := ChunkIds(matches[1..]);
      assert forall i :: 1 <= i < |matches| ==> matches[i] == matches[1..][i - 1];
      {ChunkIdOf(matches[0])} + rest
  }

  /** The extra matches whose chunk id is not in `existing`, in order, repeats included. */
  function NewProfiles(extra: seq<SearchMatch>, existing: set<Option<string>>): (r: seq<SearchMatch>)
    ensures |r| <= |extra|
  {
    if extra == [] then []
    else if ChunkIdOf(extra[|extra| - 1]) !in existing
    then NewProfiles(extra[..|extra| - 1], existing) + [extra[|extra| - 1]]
    else NewProfiles(extra[..|extra| - 1], existing)
  }

  /** The matches that form the context: profiles first, then QA matches. */
  function SelectMatches(profiles: seq<SearchMatch>, qas: seq<SearchMatch>, intro: bool, topK: int): seq<SearchMatch> {
    if intro then Take(profiles, 5) + Take(qas, 2) else Take(profiles, 2) + Take(qas, topK)
  }

  function ContextPart(m: SearchMatch): string {
    if TypeOf(m) == "qa" then "질문: " + Get(m.metadata, "question", "") + "\n답변: " + Get(m.metadata, "answer", "")
    else "[" + Get(m.metadata, "title", "") + "]\n" + Get(m.metadata, "text", "")
  }

  function ReferenceLine(m: SearchMatch): string {
    if TypeOf(m) == "qa" then "- " + Get(m.metadata, "question", "") else "- " + Get(m.metadata, "title", "")
  }

  function ContextParts(matches: seq<SearchMatch>): (r: seq<string>)
    ensures |r| == |matches|
  {
    seq(|matches|, i requires 0 <= i < |matches| => ContextPart(matches[i]))
  }

  function References(matches: seq<SearchMatch>): (r: seq<string>)
    ensures |r| == |matches|
  {
    seq(|matches|, i requires 0 <= i < |matches| => ReferenceLine(matches[i]))
  }

  /** The truthiness of an optional string. */
  predicate Present(s: Option<string>) { s.Some? && s.value != "" }

  /** The profile matches after the extra search of an introduction question (`None` when that search raises). */
  function Profiles(question: string, professorId: Option<string>, matches: seq<SearchMatch>, env: RagEnv): Option<seq<SearchMatch>> {
    var profiles := OfType(matches, "profile");
    if IsIntroQuestion(question) && Present(professorId) then
      var name := env.professorName(professorId.value);
      match env.search((if name != "" then name else "교수님") + " 소개 경력 학력", 5, professorId)
      case None => None
      case Some(found) =>
        Some(profiles + NewProfiles(OfType(found, "profile"), ChunkIds(profiles)))
    else Some(profiles)
  }

  /** `generate_answer`: `None` when a search or the model call raises. */
  function AnswerSpec(question: string, topK: int, professorId: Option<string>, env: RagEnv): Option<Answer> {
    var intro := IsIntroQuestion(question);
    var name := if Present(professorId) then Some(env.professorName(professorId.value)) else None;
    match env.search(question, SearchK(topK, intro), professorId)
    case None => None
    case Some(matches) =>
      if matches == [] then Some(Answer(NotFound, []))
      else match Profiles(question, professorId, matches, env)
        case None => None
        case Some(profiles) =>
          var context := Join(ContextParts(SelectMatches(profiles, OfType(matches, "qa"), intro, topK)), "\n\n");
          match env.complete(if name.Some? && name.value != "" then name else None, context, question)
          case None => None
          case Some(answer) => Some(Answer(answer, References(matches)))
  }

  // ---------------------------------------------------------------------------
  // The loops

  /** The de-duplication loop: the id set is taken once, before the loop. */
  method AppendNewProfiles(profiles: seq<SearchMatch>, extra: seq<SearchMatch>) returns (r: seq<SearchMatch>)
    ensures r == profiles + NewProfiles(extra, ChunkIds(profiles))
  {
    var existing := ChunkIds(profiles);
    r := profiles;
    for i := 0 to |extra|
      invariant r == profiles + NewProfiles(extra[..i], existing)
    {
      assert extra[..i + 1][..i] == extra[..i];
      if ChunkIdOf(extra[i]) !in existing {
        r := r + [extra[i]];
      }
    }
    assert extra[..|extra|] == extra;
  }

  /** `format_context`: one part per match, joined by a blank line. */
  method FormatContext(matches: seq<SearchMatch>) returns (context: string)
    ensures context == Join(ContextParts(matches), "\n\n")
  {
    var parts: seq<string> := [];
    for i := 0 to |matches|
      invariant parts == ContextParts(matches[..i])
    {
      parts := parts + [ContextPart(matches[i])];
    }
    assert matches[..|matches|] == matches;
    context := Join(parts, "\n\n");
  }

  method ReferenceLines(matches: seq<SearchMatch>) returns (refs: seq<string>)
    ensures refs == References(matches)
  {
    refs := [];
    for i := 0 to |matches|
      invariant refs == References(matches[..i])
    {
      refs := refs + [ReferenceLine(matches[i])];
    }
    assert matches[..|matches|] == matches;
  }

  method GenerateAnswer(question: string, topK: int, professorId: Option<string>, env: RagEnv) returns (r: Option<Answer>)
    ensures r == AnswerSpec(question, topK, professorId, env)
  {
    var name := if Present(professorId) then Some(env.professorName(professorId.value)) else None;
    var intro := IsIntroQuestion(question);
    var searched := env.search(question, SearchK(topK, intro), professorId);
    if searched.None? {
      return None;
    }
    var matches := searched.value;
    if matches == [] {
      return Some(Answer(NotFound, []));
    }
    var profiles := OfType(matches, "profile");
    var qas := OfType(matches, "qa");
    if intro && Present(professorId) {
      var found := env.search((if name.value != "" then name.value else "교수님") + " 소개 경력 학력", 5, professorId);
      if found.None? {
        return None;
      }
      profiles := AppendNewProfiles(profiles, OfType(found.value, "profile"));
    }
    var context := FormatContext(SelectMatches(profiles, qas, intro, topK));
    var answer := env.complete(if name.Some? && name.value != "" then name else None, context, question);
    if answer.None? {
      return None;
    }
    var refs := ReferenceLines(matches);
    r := Some(Answer(answer.value, refs));
  }

  // ---------------------------------------------------------------------------
  // Properties

  /** No match: the fixed message and no references, whatever the model would say. */
  lemma EmptySearch(question: string, topK: int, professorId: Option<string>, env: RagEnv)
    requires env.search(question, SearchK(topK, IsIntroQuestion(question)), professorId) == Some([])
    ensures AnswerSpec(question, topK, professorId, env) == Some(Answer(NotFound, []))
  {
  }

  /** One reference per original match, in order: the question of a QA match, the title of any other. */
  lemma ReferencesPerMatch(question: string, topK: int, professorId: Option<string>, env: RagEnv)
    ensures var r := AnswerSpec(question, topK, professorId, env);
      var s := env.search(question, SearchK(topK, IsIntroQuestion(question)), professorId);
      r.Some? && s.Some? ==>
        && |r.value.references| == |s.value|
        && forall i :: 0 <= i < |s.value| ==>
             r.value.references[i] == "- " + Get(s.value[i].metadata, if TypeOf(s.value[i]) == "qa" then "question" else "title", "")
  {
  }

  /** The context holds at most seven matches for an introduction question and at most `2 + top_k` otherwise, none of another type. */
  lemma SelectionBounds(profiles: seq<SearchMatch>, qas: seq<SearchMatch>, intro: bool, topK: int)
    requires forall m :: m in profiles ==> TypeOf(m) == "profile"
    requires forall m :: m in qas ==> TypeOf(m) == "qa"
    ensures var s := SelectMatches(profiles, qas, intro, topK);
      && (intro ==> |s| <= 7)
      && (!intro && 0 <= topK ==> |s| <= 2 + topK)
      && (forall m :: m in s ==> TypeOf(m) == "profile" || TypeOf(m) == "qa")
  {
    var s := SelectMatches(profiles, qas, intro, topK);
    var p := if intro then Take(profiles, 5) else Take(profiles, 2);
    var q := if intro then Take(qas, 2) else Take(qas, topK);
    assert s == p + q;
    assert forall m :: m in p ==> m in profiles;
    assert forall m :: m in q ==> m in qas;
  }

  /** The extras kept are exactly those whose chunk id is new, in order; repeats among them are all kept. */
  lemma {:induction false} NewProfilesSpec(extra: seq<SearchMatch>, existing: set<Option<string>>)
    ensures forall m :: m in NewProfiles(extra, existing) <==> m in extra && ChunkIdOf(m) !in existing
    ensures (forall m :: m in extra ==> ChunkIdOf(m) !in existing) ==> NewProfiles(extra, existing) == extra
  {
    if extra != [] {
      var init := extra[..|extra| - 1];
      NewProfilesSpec(init, existing);
      assert extra == init + [extra[|extra| - 1]];
      assert forall m :: m in extra <==> m in init || m == extra[|extra| - 1];
    }
  }

  /**
   * A question that asks for an introduction is recognised, and a question
   * about research, which holds none of the six keywords, is not.
   */
  lemma IntroDetection()
    ensures IsIntroQuestion("자기소개 부탁드립니다")
    ensures !IsIntroQuestion("연구 분야는 무엇인가요?")
  {
    assert Contains("자기소개 부탁드립니다", "자기소개");
    var q := "연구 분야는 무엇인가요?";
    forall i | 0 <= i < |IntroKeywords|
      ensures !Contains(q, IntroKeywords[i])
    {
      NotContainsFirst(q, IntroKeywords[i]);
    }
  }

  /** A piece whose first character never occurs in the text is not contained in it. */
  lemma {:induction false} NotContainsFirst(s: string, sub: string)
    requires sub != [] && sub[0] !in s
    ensures !Contains(s, sub)
  {
    if s != [] {
      assert forall c :: c in s[1..] ==> c in s;
      NotContainsFirst(s[1..], sub);
    }
  }
}
