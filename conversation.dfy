/**
 * The conversation-based score (matching.py `calculate_chat_based_score`) and
 * the combiner of the initial and the conversation score
 * (`calculate_final_matching_score`).
 *
 * The language model that grades the conversation is a parameter: it is
 * given the applicant summary and the conversation text, and yields either a
 * parsed grading or `None` when the call, the JSON parsing or the integer
 * conversion raises.
 */
module Conversation {
  import opened Wrappers
  import opened PyNum
  import opened PyStr

  datatype Message = Message(role: string, content: string)

  /** The fields of the model's JSON answer; an absent field is `None`. */
  datatype Grading = Grading(
    totalScore: Option<real>, analysis: Option<string>,
    depthQuality: Option<real>, answerQuality: Option<real>, engagement: Option<real>, relevance: Option<real>)

  datatype ChatDetails =
    | NoDetails
    | Rubric(depthQuality: real, answerQuality: real, engagement: real, relevance: real)
    | LengthStats(messageCount: nat, avgLength: int)

  datatype ChatScore = ChatScore(chatScore: int, analysis: string, details: ChatDetails)

  type Evaluator = (string, string) -> Option<Grading>

  const NoMessages := "채팅 내역이 없습니다."
  const TooShort := "대화가 충분하지 않습니다."
  const GradedDefault := "대화 분석 완료"
  const FallbackAnalysis := "대화 분석이 완료되었습니다."

  function Contents(messages: seq<Message>, role: string): (r: seq<string>)
    ensures |r| <= |messages|
    ensures forall q :: q in r ==> exists m :: m in messages && m.role == role && m.content == q
    ensures forall m :: m in messages && m.role == role ==> m.content in r
  {
    if messages == [] then []
    else
      var rest := Contents(messages[1..], role);
      assert forall m :: m in messages[1..] ==> m in messages;
      if messages[0].role == role then [messages[0].content] + rest else rest
  }

  /** `"\n".join(f"질문: {q}\n답변: {a}" for q, a in zip(questions, answers))`. */
  function ConversationText(questions: seq<string>, answers: seq<string>): string {
    var n := if |questions| <= |answers| then |questions| else |answers|;
    Join(seq(n, i requires 0 <= i < n => "질문: " + questions[i] + "\n답변: " + answers[i]), "\n")
  }

  function ApplicantContext(interestKeyword: string, learningStyles: seq<string>): string {
    "관심 키워드: " + interestKeyword + "\n학습 성향: " + Join(learningStyles, ", ")
  }

  function TotalLength(messages: seq<Message>): (r: nat) {
    if messages == [] then 0 else |messages[0].content| + TotalLength(messages[1..])
  }

  /** A positive grade t in [0, 100] is mapped linearly onto [70, 98]; any other grade is kept. */
  function ScaleGrade(grade: int): (r: int) {
    if grade > 0 then Clamp(70, 98, Trunc(grade as real / 100.0 * 28.0 + 70.0)) else grade
  }

  /** The length-based score: the mean message length, capped at 500, mapped onto [70, 98]. */
  function LengthScore(avgLength: real): (r: int) {
    Clamp(70, 98, Trunc((if avgLength <= 500.0 then avgLength else 500.0) / 500.0 * 28.0 + 70.0))
  }

  function ChatBasedScore(messages: seq<Message>, interestKeyword: string, learningStyles: seq<string>, grade: Evaluator): ChatScore {
    if messages == [] then ChatScore(0, NoMessages, NoDetails)
    else if |messages| < 2 then ChatScore(0, TooShort, NoDetails)
    else
      var questions := Contents(messages, "user");
      var answers := Contents(messages, "professor");
      if questions == [] || answers == [] then ChatScore(0, TooShort, NoDetails)
      else Graded(messages, grade(ApplicantContext(interestKeyword, learningStyles), ConversationText(questions, answers)))
  }

  /** The score from the evaluator's outcome, or from the mean message length when grading raised. */
  function Graded(messages: seq<Message>, outcome: Option<Grading>): ChatScore
    requires messages != []
  {
    match outcome
    case Some(g) =>
      ChatScore(
        ScaleGrade(Trunc(g.totalScore.GetOr(0.0))),
        g.analysis.GetOr(GradedDefault),
        Rubric(g.depthQuality.GetOr(0.0), g.answerQuality.GetOr(0.0), g.engagement.GetOr(0.0), g.relevance.GetOr(0.0)))
    case None =>
      var avg := TotalLength(messages) as real / |messages| as real;
      ChatScore(LengthScore(avg), FallbackAnalysis, LengthStats(|messages|, Trunc(avg)))
  }

  datatype FinalScore = FinalScore(finalScore: int, initialScore: int, chatScore: int, weightedScore: int, chatAnalysis: string)

  /** 60% initial score plus 40% conversation score, truncated by `int()` and clamped to [70, 98]. */
  function FinalMatchingScore(initialScore: int, chatScore: int, chatAnalysis: string): (r: FinalScore)
    ensures r.initialScore == initialScore && r.chatScore == chatScore && r.chatAnalysis == chatAnalysis
    ensures 70 <= r.finalScore <= 98
  {
    var weighted := Trunc(initialScore as real * 0.6 + chatScore as real * 0.4);
    FinalScore(Clamp(70, 98, weighted), initialScore, chatScore, weighted, chatAnalysis)
  }

  // ---------------------------------------------------------------------------
  // Properties

  /** The guard cases score 0: no messages, a single message, or no user or no professor message. */
  lemma GuardsScoreZero(messages: seq<Message>, interestKeyword: string, learningStyles: seq<string>, grade: Evaluator)
    ensures messages == [] ==> ChatBasedScore(messages, interestKeyword, learningStyles, grade) == ChatScore(0, NoMessages, NoDetails)
    ensures |messages| == 1 ==> ChatBasedScore(messages, interestKeyword, learningStyles, grade) == ChatScore(0, TooShort, NoDetails)
    ensures |messages| >= 2 && (forall m :: m in messages ==> m.role != "user") ==>
      ChatBasedScore(messages, interestKeyword, learningStyles, grade) == ChatScore(0, TooShort, NoDetails)
    ensures |messages| >= 2 && (forall m :: m in messages ==> m.role != "professor") ==>
      ChatBasedScore(messages, interestKeyword, learningStyles, grade) == ChatScore(0, TooShort, NoDetails)
  {
    if |messages| >= 2 && (forall m :: m in messages ==> m.role != "user") {
      NoneOfRole(messages, "user");
    }
    if |messages| >= 2 && (forall m :: m in messages ==> m.role != "professor") {
      NoneOfRole(messages, "professor");
    }
  }

  lemma {:induction false} NoneOfRole(messages: seq<Message>, role: string)
    requires forall m :: m in messages ==> m.role != role
    ensures Contents(messages, role) == []
  {
    if messages != [] {
      assert forall m :: m in messages[1..] ==> m in messages;
      NoneOfRole(messages[1..], role);
    }
  }

  /** One message contributes its content exactly when it has the role. */
  lemma ContentsSingleton(m: Message, role: string)
    ensures Contents([m], role) == (if m.role == role then [m.content] else [])
  {
    assert [m][1..] == [];
  }

  /**
   * The comprehension keeps order and multiplicity: the contents of two
   * joined histories are the contents of the first followed by those of the
   * second, which is what lets `zip` pair the i-th question with the i-th answer.
   */
  lemma {:induction false} ContentsAppend(a: seq<Message>, b: seq<Message>, role: string)
    ensures Contents(a + b, role) == Contents(a, role) + Contents(b, role)
  {
    if a == [] {
      assert a + b == b;
    } else {
      assert (a + b)[1..] == a[1..] + b;
      ContentsAppend(a[1..], b, role);
    }
  }

  /**
   * Past the guards the evaluator decides: its total, truncated and scaled, or,
   * when grading fails, the length score of the mean message length.
   */
  lemma GradedOrLength(messages: seq<Message>, interestKeyword: string, learningStyles: seq<string>, grade: Evaluator)
    requires |messages| >= 2
    requires exists m :: m in messages && m.role == "user"
    requires exists m :: m in messages && m.role == "professor"
    ensures var outcome := grade(ApplicantContext(interestKeyword, learningStyles),
                                 ConversationText(Contents(messages, "user"), Contents(messages, "professor")));
      var r := ChatBasedScore(messages, interestKeyword, learningStyles, grade);
      && (outcome.Some? ==> r.chatScore == ScaleGrade(Trunc(outcome.value.totalScore.GetOr(0.0))))
      && (outcome.None? ==> r.chatScore == LengthScore(TotalLength(messages) as real / |messages| as real) && r.analysis == FallbackAnalysis)
  {
    SomeOfRole(messages, "user");
    SomeOfRole(messages, "professor");
    PastGuards(messages, interestKeyword, learningStyles, grade);
  }

  /** Past the guards the score is the evaluator's branch of the function. */
  lemma PastGuards(messages: seq<Message>, interestKeyword: string, learningStyles: seq<string>, grade: Evaluator)
    requires |messages| >= 2 && Contents(messages, "user") != [] && Contents(messages, "professor") != []
    ensures ChatBasedScore(messages, interestKeyword, learningStyles, grade)
      == Graded(messages, grade(ApplicantContext(interestKeyword, learningStyles),
                                ConversationText(Contents(messages, "user"), Contents(messages, "professor"))))
  {
  }

  lemma SomeOfRole(messages: seq<Message>, role: string)
    requires exists m :: m in messages && m.role == role
    ensures Contents(messages, role) != []
  {
    var m :| m in messages && m.role == role;
    assert m.content in Contents(messages, role);
  }

  /** A positive grade lands in [70, 98]; 100 gives 98, and a grade of 0 or less passes through. */
  lemma ScaleGradeRange(grade: int)
    ensures grade > 0 ==> 70 <= ScaleGrade(grade) <= 98
    ensures 0 < grade <= 100 ==> ScaleGrade(grade) == Trunc(grade as real * 0.28 + 70.0)
    ensures ScaleGrade(100) == 98
    ensures grade <= 0 ==> ScaleGrade(grade) == grade
  {
    assert 100 as real / 100.0 * 28.0 + 70.0 == 98.0;
    if 0 < grade <= 100 {
      var x := grade as real / 100.0 * 28.0 + 70.0;
      assert x == grade as real * 0.28 + 70.0;
      assert 70.0 < x <= 98.0;
    }
  }

  /** The length score always lies in [70, 98], never decreases with the mean length, and is 98 from 500 on. */
  lemma LengthScoreRange(x: real, y: real)
    requires 0.0 <= x <= y
    ensures 70 <= LengthScore(x) <= LengthScore(y) <= 98
    ensures 500.0 <= x ==> LengthScore(x) == 98
    ensures LengthScore(x) == Trunc((if x <= 500.0 then x else 500.0) * 0.056 + 70.0)
  {
    var cx := if x <= 500.0 then x else 500.0;
    var cy := if y <= 500.0 then y else 500.0;
    assert cx / 500.0 * 28.0 + 70.0 == cx * 0.056 + 70.0;
    assert cy / 500.0 * 28.0 + 70.0 == cy * 0.056 + 70.0;
    assert 70.0 <= cx * 0.056 + 70.0 <= cy * 0.056 + 70.0 <= 98.0;
    TruncMonotone(cx * 0.056 + 70.0, cy * 0.056 + 70.0);
    if 500.0 <= x {
      assert cx * 0.056 + 70.0 == 98.0;
    }
  }

  /**
   * Whatever the evaluator does, the score is never in 1..69 or above 98: it is
   * 0 for the guard cases, a pass-through grade of 0 or less, or in [70, 98].
   */
  lemma ChatScoreRange(messages: seq<Message>, interestKeyword: string, learningStyles: seq<string>, grade: Evaluator)
    ensures var r := ChatBasedScore(messages, interestKeyword, learningStyles, grade);
      r.chatScore <= 0 || 70 <= r.chatScore <= 98
    ensures var r := ChatBasedScore(messages, interestKeyword, learningStyles, grade);
      r.details.LengthStats? ==> 70 <= r.chatScore <= 98 && r.details.messageCount == |messages| >= 2
  {
    if |messages| >= 2 {
      var questions := Contents(messages, "user");
      var answers := Contents(messages, "professor");
      if questions != [] && answers != [] {
        match grade(ApplicantContext(interestKeyword, learningStyles), ConversationText(questions, answers))
        case Some(g) => ScaleGradeRange(Trunc(g.totalScore.GetOr(0.0)));
        case None =>
          var avg := TotalLength(messages) as real / |messages| as real;
          LengthScoreRange(avg, avg);
      }
    }
  }

  /** Inputs already inside [70, 98] combine to a score that needs no clamping and lies between them. */
  lemma FinalBetweenInputs(initialScore: int, chatScore: int)
    requires 70 <= initialScore <= 98 && 70 <= chatScore <= 98
    ensures var r := FinalMatchingScore(initialScore, chatScore, "");
      r.finalScore == r.weightedScore
      && (initialScore <= chatScore ==> initialScore <= r.finalScore <= chatScore)
      && (chatScore <= initialScore ==> chatScore <= r.finalScore <= initialScore)
  {
    var w := initialScore as real * 0.6 + chatScore as real * 0.4;
    assert 70.0 <= w <= 98.0;
    TruncBetween(w, if initialScore <= chatScore then initialScore else chatScore);
  }

  lemma TruncBetween(x: real, n: int)
    requires n as real <= x
    ensures n <= Trunc(x)
  {
    TruncMonotone(n as real, x);
    assert Trunc(n as real) == n;
  }

  /** The combined score never decreases as either input grows. */
  lemma FinalMonotone(i1: int, c1: int, i2: int, c2: int)
    requires i1 <= i2 && c1 <= c2
    ensures FinalMatchingScore(i1, c1, "").finalScore <= FinalMatchingScore(i2, c2, "").finalScore
  {
    var w1 := i1 as real * 0.6 + c1 as real * 0.4;
    var w2 := i2 as real * 0.6 + c2 as real * 0.4;
    assert w1 <= w2;
    TruncMonotone(w1, w2);
    ClampMonotone(70, 98, Trunc(w1), Trunc(w2));
  }

  /** The combiner truncates: 0.6 * 71 + 0.4 * 70 = 70.6 gives 70, where `round` would give 71. */
  lemma FinalTruncates()
    ensures FinalMatchingScore(71, 70, "").weightedScore == 70
    ensures RoundHalfEven(71.0 * 0.6 + 70.0 * 0.4) == 71
  {
    assert 71 as real * 0.6 + 70 as real * 0.4 == 70.6;
    assert 71.0 * 0.6 + 70.0 * 0.4 == 70.6;
  }
}
