/**
 * The deterministic parts of the HTTP layer (api.py): request validation
 * against the closed keyword and style lists, the partial update of a stored
 * applicant, the storage format of learning styles, the choice of the final
 * score in the report and e-mail endpoints, and the guard of the chat
 * endpoint. Routing, sessions and the database are not modelled; a stored
 * applicant is an object whose fields the update assigns.
 */
module Api {
  import opened Wrappers
  import opened PyStr
  import opened Services
  import opened Catalog
  import opened Indicators
  import opened Aggregate
  import opened Matcher
  import opened Conversation
  import opened Rag

  const ValidKeywords: seq<string> := ["디지털 전환", "조직 학습", "기술 혁신", "기술 전략", "지속가능경영"]
  const ValidStyles: seq<string> := ["사례 기반", "협업형", "탐구형", "자율형", "피드백 선호", "실증 분석"]

  /** The HTTP errors: 400 with its detail message, or 500. */
  datatype ApiError = BadRequest(detail: string) | ServerError

  const KeywordRejected := BadRequest("관심 키워드는 다음 중 하나여야 합니다: " + Join(ValidKeywords, ", "))
  const StyleRejected := BadRequest("학습 성향은 다음 중 선택해야 합니다: " + Join(ValidStyles, ", "))
  const NoQuestion := BadRequest("질문을 입력해주세요.")
  const NoProfessor := BadRequest("교수님 ID를 입력해주세요.")

  predicate AllValidStyles(styles: seq<string>) {
    forall i :: 0 <= i < |styles| ==> styles[i] in ValidStyles
  }

  /** The validation loop: it stops at the first style outside the valid list. */
  method CheckStyles(styles: seq<string>) returns (ok: bool)
    ensures ok <==> AllValidStyles(styles)
  {
    for i := 0 to |styles|
      invariant AllValidStyles(styles[..i])
    {
      if styles[i] !in ValidStyles {
        assert !AllValidStyles(styles);
        return false;
      }
    }
    assert styles[..|styles|] == styles;
    return true;
  }

  // ---------------------------------------------------------------------------
  // Learning-style storage

  /** `", ".join(styles)`, the stored column. */
  function StoreStyles(styles: seq<string>): string { Join(styles, ", ") }

  /** `[s.strip() for s in stored.split(",")]`, how the later endpoints read the column back. */
  function LoadStyles(stored: string): seq<string> { StripAll(Split(stored, ',')) }

  /** A stored applicant as the later endpoints use it: the styles read back from the column. */
  function ApplicantData(row: Row): Applicant {
    Applicant(row.interestKeyword, StyleList(LoadStyles(row.learningStyles)))
  }

  // ---------------------------------------------------------------------------
  // POST /match

  datatype ApplicantRequest = ApplicantRequest(name: Option<string>, major: Option<string>, interestKeyword: string, learningStyles: seq<string>)

  datatype Row = Row(name: Option<string>, major: Option<string>, interestKeyword: string, learningStyles: string)

  function MatchRequestError(req: ApplicantRequest): Option<ApiError> {
    if req.interestKeyword !in ValidKeywords then Some(KeywordRejected)
    else if !AllValidStyles(req.learningStyles) then Some(StyleRejected)
    else None
  }

  /** An engine failure surfaces as a 500. */
  function AsApi<T>(r: Result<T, Error>): Result<T, ApiError> {
    match r
    case Ok(v) => Ok(v)
    case Err(_) => Err(ServerError)
  }

  /**
   * `match_applicant`: validate, store the applicant (even if matching then
   * fails: the rollback comes after the commit), and match against every
   * professor. `stored` is the row written; `used` the professor ids scored.
   */
  method MatchApplicant(req: ApplicantRequest, professorIds: Option<seq<string>>, env: Env)
    returns (stored: Option<Row>, r: Result<seq<MatchResult>, ApiError>, ghost used: seq<string>)
    ensures MatchRequestError(req).Some? ==> stored == None && r == Err(MatchRequestError(req).value)
    ensures MatchRequestError(req).None? ==>
      stored == Some(Row(req.name, req.major, req.interestKeyword, StoreStyles(req.learningStyles)))
    ensures MatchRequestError(req).None? && (professorIds.Some? || CatalogProfessorIds(env.catalog).Ok?) ==>
      r == AsApi(MatchAllSpec(Applicant(req.interestKeyword, StyleList(req.learningStyles)), used, env))
      && (professorIds.Some? ==> used == professorIds.value)
      && (professorIds.None? ==> Enumerates(used, CatalogProfessorIds(env.catalog).value))
    ensures MatchRequestError(req).None? && professorIds.None? && CatalogProfessorIds(env.catalog).Err? ==>
      r == Err(ServerError)
  {
    used := [];
    if req.interestKeyword !in ValidKeywords {
      return None, Err(KeywordRejected), used;
    }
    var ok := CheckStyles(req.learningStyles);
    if !ok {
      return None, Err(StyleRejected), used;
    }
    stored := Some(Row(req.name, req.major, req.interestKeyword, StoreStyles(req.learningStyles)));
    var results;
    results, used := MatchAll(Applicant(req.interestKeyword, StyleList(req.learningStyles)), professorIds, env);
    r := AsApi(results);
  }

  // ---------------------------------------------------------------------------
  // PUT /applicants/{id}

  datatype UpdateRequest = UpdateRequest(name: Option<string>, major: Option<string>, interestKeyword: Option<string>, learningStyles: Option<seq<string>>)

  /** A field is validated only when it is truthy: "" and [] skip validation. */
  function UpdateError(req: UpdateRequest): Option<ApiError> {
    if req.interestKeyword.Some? && req.interestKeyword.value != "" && req.interestKeyword.value !in ValidKeywords then Some(KeywordRejected)
    else if req.learningStyles.Some? && req.learningStyles.value != [] && !AllValidStyles(req.learningStyles.value) then Some(StyleRejected)
    else None
  }

  /** Every field that is not `None` in the request replaces the stored one. */
  function Updated(row: Row, req: UpdateRequest): Row {
    Row(
      if req.name.Some? then req.name else row.name,
      if req.major.Some? then req.major else row.major,
      if req.interestKeyword.Some? then req.interestKeyword.value else row.interestKeyword,
      if req.learningStyles.Some? then StoreStyles(req.learningStyles.value) else row.learningStyles)
  }

  /** A stored applicant row, updated in place. */
  class ApplicantRecord {
    var name: Option<string>
    var major: Option<string>
    var interestKeyword: string
    var learningStyles: string

    function Value(): Row
      reads this
    {
      Row(name, major, interestKeyword, learningStyles)
    }

    constructor(row: Row)
      ensures Value() == row
    {
      name := row.name;
      major := row.major;
      interestKeyword := row.interestKeyword;
      learningStyles := row.learningStyles;
    }

    /** `update_applicant` on a row that was found: validate, then assign the given fields. */
    method Update(req: UpdateRequest) returns (r: Option<ApiError>)
      modifies this
      ensures r == UpdateError(req)
      ensures r.Some? ==> Value() == old(Value())
      ensures r.None? ==> Value() == Updated(old(Value()), req)
    {
      if req.interestKeyword.Some? && req.interestKeyword.value != "" && req.interestKeyword.value !in ValidKeywords {
        return Some(KeywordRejected);
      }
      if req.learningStyles.Some? && req.learningStyles.value != [] {
        var ok := CheckStyles(req.learningStyles.value);
        if !ok {
          return Some(StyleRejected);
        }
      }
      if req.name.Some? { name := req.name; }
      if req.major.Some? { major := req.major; }
      if req.interestKeyword.Some? { interestKeyword := req.interestKeyword.value; }
      if req.learningStyles.Some? { learningStyles := StoreStyles(req.learningStyles.value); }
      r := None;
    }
  }

  // ---------------------------------------------------------------------------
  // Final score selection

  datatype FinalScoreData = FinalScoreData(finalScore: int, initialScore: int, chatScore: int, weightedScore: int, chatAnalysis: string)

  /** Without a conversation score (0) the initial total stands; otherwise the combined score. */
  function SelectFinalScore(initialTotal: int, chat: ChatScore): (r: FinalScoreData)
    ensures r.initialScore == initialTotal && r.chatScore == chat.chatScore && r.chatAnalysis == chat.analysis
    ensures r.weightedScore == r.finalScore
  {
    var final := if chat.chatScore == 0 then initialTotal
                 else FinalMatchingScore(initialTotal, chat.chatScore, chat.analysis).finalScore;
    FinalScoreData(final, initialTotal, chat.chatScore, final, chat.analysis)
  }

  /** The scores of `generate_final_matching_report` for a found applicant, professor and session. */
  function ReportScores(row: Row, professorId: string, messages: seq<Message>, env: Env, grade: Evaluator): Result<FinalScoreData, ApiError> {
    match MatchingSpec(ApplicantData(row), professorId, None, env).0
    case Err(_) => Err(ServerError)
    case Ok(initial) =>
      Ok(SelectFinalScore(initial.totalScore, ChatBasedScore(messages, row.interestKeyword, LoadStyles(row.learningStyles), grade)))
  }

  /** What looking up a chat session (and its messages) yields. */
  datatype SessionLookup = LookupFailed | NoSession | Session(messages: seq<Message>)

  /** The score passed to the e-mail draft: `None` unless a session is given and found and every step succeeds. */
  function EmailDraftScore(sessionId: Option<int>, lookup: int -> SessionLookup, row: Row, professorId: string, env: Env, grade: Evaluator): Option<int> {
    if sessionId.None? || sessionId.value == 0 then None
    else match lookup(sessionId.value)
      case LookupFailed => None
      case NoSession => None
      case Session(messages) =>
        match MatchingSpec(ApplicantData(row), professorId, None, env).0
        case Err(_) => None
        case Ok(initial) =>
          if messages == [] then Some(initial.totalScore)
          else Some(SelectFinalScore(initial.totalScore, ChatBasedScore(messages, row.interestKeyword, LoadStyles(row.learningStyles), grade)).finalScore)
  }

  // ---------------------------------------------------------------------------
  // POST /chat

  datatype ChatRequest = ChatRequest(question: string, professorId: Option<string>, topK: int)

  function ChatRequestError(req: ChatRequest): Option<ApiError> {
    if req.question == "" || Strip(req.question) == "" then Some(NoQuestion)
    else if !Present(req.professorId) then Some(NoProfessor)
    else None
  }

  /** `chat`, apart from storing the messages of a session. */
  function Chat(req: ChatRequest, env: RagEnv): Result<Answer, ApiError> {
    match ChatRequestError(req)
    case Some(e) => Err(e)
    case None =>
      match AnswerSpec(req.question, req.topK, req.professorId, env)
      case None => Err(ServerError)
      case Some(a) => Ok(a)
  }

  // ---------------------------------------------------------------------------
  // Properties

  /** A request outside the closed lists is rejected with 400 and nothing is stored. */
  lemma MatchRejects(req: ApplicantRequest)
    ensures req.interestKeyword !in ValidKeywords ==> MatchRequestError(req) == Some(KeywordRejected)
    ensures req.interestKeyword in ValidKeywords ==>
      (MatchRequestError(req) == Some(StyleRejected) <==> exists i :: 0 <= i < |req.learningStyles| && req.learningStyles[i] !in ValidStyles)
    ensures MatchRequestError(req).None? <==> req.interestKeyword in ValidKeywords && forall s :: s in req.learningStyles ==> s in ValidStyles
  {
  }

  /** Falsy fields skip validation: an update with "" and [] is accepted and stores "" for both. */
  lemma FalsyFieldsSkipValidation(row: Row)
    ensures UpdateError(UpdateRequest(None, None, Some(""), Some([]))) == None
    ensures Updated(row, UpdateRequest(None, None, Some(""), Some([]))).interestKeyword == ""
    ensures Updated(row, UpdateRequest(None, None, Some(""), Some([]))).learningStyles == ""
  {
  }

  /** An update changes exactly the fields given and leaves the others as they were. */
  lemma UpdateIsPartial(row: Row, req: UpdateRequest)
    ensures var u := Updated(row, req);
      && (req.name.Some? ==> u.name == req.name)
      && (req.name.None? ==> u.name == row.name)
      && (req.major.Some? ==> u.major == req.major)
      && (req.major.None? ==> u.major == row.major)
      && (req.interestKeyword.Some? ==> u.interestKeyword == req.interestKeyword.value)
      && (req.interestKeyword.None? ==> u.interestKeyword == row.interestKeyword)
      && (req.learningStyles.Some? && req.learningStyles.value != [] && AllValidStyles(req.learningStyles.value) ==>
            LoadStyles(u.learningStyles) == req.learningStyles.value)
      && (req.learningStyles.None? ==> u.learningStyles == row.learningStyles)
    ensures Updated(row, UpdateRequest(None, None, None, None)) == row
  {
    if req.learningStyles.Some? && req.learningStyles.value != [] && AllValidStyles(req.learningStyles.value) {
      StylesRoundTrip(req.learningStyles.value);
    }
  }

  /** Every valid style survives storage: no comma inside, no surrounding whitespace. */
  lemma ValidStylesClean()
    ensures forall i :: 0 <= i < |ValidStyles| ==> Clean(ValidStyles[i], ',')
  {
    assert Clean("사례 기반", ',');
    assert Clean("협업형", ',');
    assert Clean("탐구형", ',');
    assert Clean("자율형", ',');
    assert Clean("피드백 선호", ',');
    assert Clean("실증 분석", ',');
  }

  /** A non-empty list of valid styles is read back exactly as it was stored. */
  lemma StylesRoundTrip(styles: seq<string>)
    requires styles != [] && AllValidStyles(styles)
    ensures LoadStyles(StoreStyles(styles)) == styles
  {
    ValidStylesClean();
    forall i | 0 <= i < |styles|
      ensures Clean(styles[i], ',')
    {
      var j :| 0 <= j < |ValidStyles| && ValidStyles[j] == styles[i];
    }
    JoinSplitRoundTrip(styles);
  }

  /** The empty list does not survive: it is stored as "" and read back as [""]. */
  lemma EmptyStylesComeBackAsEmptyString()
    ensures StoreStyles([]) == "" && LoadStyles(StoreStyles([])) == [""]
  {
    EmptyListDoesNotRoundTrip();
  }

  /** A conversation score of 0 keeps the initial total; any other gives the combined score in [70, 98]. */
  lemma SelectFinalCases(initialTotal: int, chat: ChatScore)
    ensures chat.chatScore == 0 ==> SelectFinalScore(initialTotal, chat).finalScore == initialTotal
    ensures chat.chatScore != 0 ==>
      && SelectFinalScore(initialTotal, chat).finalScore == FinalMatchingScore(initialTotal, chat.chatScore, chat.analysis).finalScore
      && 70 <= SelectFinalScore(initialTotal, chat).finalScore <= 98
  {
  }

  /** The report's final score always lies in [70, 98]: the initial total does, and so does the combined score. */
  lemma ReportScoresRange(row: Row, professorId: string, messages: seq<Message>, env: Env, grade: Evaluator)
    ensures var r := ReportScores(row, professorId, messages, env, grade);
      r.Ok? ==> 70 <= r.value.initialScore <= 89 && 70 <= r.value.finalScore <= 98
    ensures ReportScores(row, professorId, messages, env, grade).Err? <==> MatchingSpec(ApplicantData(row), professorId, None, env).0.Err?
  {
    MatchResultShape(ApplicantData(row), professorId, None, env);
  }

  /**
   * The e-mail score stays `None` unless a session is given and found and the
   * initial score succeeds; a session without messages gives the initial
   * total; any score given lies in [70, 98].
   */
  lemma EmailDraftScoreCases(sessionId: Option<int>, lookup: int -> SessionLookup, row: Row, professorId: string, env: Env, grade: Evaluator)
    ensures var r := EmailDraftScore(sessionId, lookup, row, professorId, env, grade);
      && (r.Some? ==> sessionId.Some? && sessionId.value != 0 && lookup(sessionId.value).Session?
                      && MatchingSpec(ApplicantData(row), professorId, None, env).0.Ok?)
      && (r.Some? ==> 70 <= r.value <= 98)
      && (sessionId.Some? && sessionId.value != 0 && lookup(sessionId.value) == Session([])
          && MatchingSpec(ApplicantData(row), professorId, None, env).0.Ok? ==>
            r == Some(MatchingSpec(ApplicantData(row), professorId, None, env).0.value.totalScore))
  {
    var initial := MatchingSpec(ApplicantData(row), professorId, None, env).0;
    MatchResultShape(ApplicantData(row), professorId, None, env);
    if sessionId.Some? && sessionId.value != 0 && lookup(sessionId.value).Session? && initial.Ok? {
      var messages := lookup(sessionId.value).messages;
      if messages != [] {
        SelectFinalRange(initial.value.totalScore, ChatBasedScore(messages, row.interestKeyword, LoadStyles(row.learningStyles), grade));
      }
    }
  }

  lemma SelectFinalRange(initialTotal: int, chat: ChatScore)
    requires 70 <= initialTotal <= 98
    ensures 70 <= SelectFinalScore(initialTotal, chat).finalScore <= 98
  {
  }

  /** An empty or blank question, or a missing professor id, is rejected before any search or model call. */
  lemma ChatRejectsBeforeRetrieval(req: ChatRequest, env1: RagEnv, env2: RagEnv)
    requires req.question == "" || Strip(req.question) == "" || !Present(req.professorId)
    ensures Chat(req, env1) == Chat(req, env2)
    ensures Chat(req, env1).Err? && Chat(req, env1).error.BadRequest?
  {
  }
}
