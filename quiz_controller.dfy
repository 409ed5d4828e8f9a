/**
 * The server's request handlers for quiz generation and answer explanation
 * (server/controllers/quizController.js), as pure functions from a request body to either
 * the call forwarded to the external generator or the 400 answer.
 *
 * A JSON body is untyped: each string field is `None` when it is missing, `null` or
 * `undefined`, and each number field likewise. The generator itself, the Express response
 * and the logging are not part of this model; a `Success` stands for "the generator is
 * called with exactly these arguments".
 */
module QuizController {
  import opened Wrappers
  import opened JsText

  /** The fields `generateQuiz` destructures from `req.body`. */
  datatype QuizRequestBody = QuizRequestBody(
    topic: Option<string>,
    difficulty: Option<string>,
    questionType: Option<string>,
    numberOfQuestions: Option<int>,
    totalTime: Option<int>)

  /** The arguments `geminiService.generateQuiz` receives. */
  datatype GeneratorCall = GeneratorCall(
    topic: string,
    difficulty: string,
    questionType: string,
    numberOfQuestions: int,
    totalTime: int)

  /** The 400 answers of `generateQuiz`, in the order their guards run. */
  datatype QuizError =
    | MissingRequiredFields
    | InvalidDifficulty
    | InvalidQuestionType
    | QuestionCountOutOfRange
    | TotalTimeTooLow(minutes: int)
    | TotalTimeTooHigh

  const ValidDifficulties: seq<string> := ["easy", "medium", "hard"]
  const ValidQuestionTypes: seq<string> := ["mcq", "true-false"]
  const MinQuestions: int := 1
  const MaxQuestions: int := 20
  /** Thirty minutes, the largest total time the server accepts. */
  const MaxTime: int := 1800
  /** Seconds per question when the difficulty is not a key of the table. */
  const FallbackTimePerQuestion: int := 45

  /** JavaScript truthiness of an optional string: present and not `""`. */
  predicate StringTruthy(v: Option<string>) {
    v.Some? && v.value != ""
  }

  /** JavaScript truthiness of an optional number: present and not `0`. */
  predicate NumberTruthy(v: Option<int>) {
    v.Some? && v.value != 0
  }

  /** The fields the presence guard checks, in the order its text lists them. */
  const RequiredFields: seq<string> := ["topic", "difficulty", "questionType", "numberOfQuestions"]

  /**
   * The presence guard of `generateQuiz`: each of the four fields is present, the strings
   * are not `""` and the count is not `0`. `totalTime` is not among them.
   */
  predicate HasRequiredFields(body: QuizRequestBody)
    ensures HasRequiredFields(body) <==>
      && body.topic != None && body.topic != Some("")
      && body.difficulty != None && body.difficulty != Some("")
      && body.questionType != None && body.questionType != Some("")
      && body.numberOfQuestions != None && body.numberOfQuestions != Some(0)
  {
    StringTruthy(body.topic) && StringTruthy(body.difficulty)
    && StringTruthy(body.questionType) && NumberTruthy(body.numberOfQuestions)
  }

  /** The entry of `baseTimePerQuestion` for `difficulty`, or `None` when it has no entry. */
  function TableEntry(difficulty: string, questionType: string): (e: Option<int>)
    ensures e.Some? <==> difficulty in ValidDifficulties
    ensures e.Some? ==> 20 <= e.value <= 60
  {
    var isMcq := questionType == "mcq";
    if difficulty == "easy" then Some(if isMcq then 30 else 20)
    else if difficulty == "medium" then Some(if isMcq then 45 else 30)
    else if difficulty == "hard" then Some(if isMcq then 60 else 45)
    else None
  }

  /** `baseTimePerQuestion[difficulty] || 45`: every entry is non-zero, so `||` only fills a gap. */
  function TimePerQuestion(difficulty: string, questionType: string): (t: int)
    ensures difficulty !in ValidDifficulties ==> t == FallbackTimePerQuestion
    ensures 20 <= t <= 60
  {
    match TableEntry(difficulty, questionType)
    case Some(seconds) => seconds
    case None => FallbackTimePerQuestion
  }

  /** `getSuggestedMinTime`: seconds per question times the number of questions. */
  function SuggestedMinTime(difficulty: string, questionType: string, numberOfQuestions: int): (m: int)
    ensures numberOfQuestions >= 1 ==> m >= 20 * numberOfQuestions
    ensures numberOfQuestions >= 0 ==> m <= 60 * numberOfQuestions
  {
    TimePerQuestion(difficulty, questionType) * numberOfQuestions
  }

  /** `totalTime ? parseInt(totalTime) : minTime`: a missing or zero time becomes the minimum. */
  function ResolveTotalTime(totalTime: Option<int>, minTime: int): (t: int)
    ensures NumberTruthy(totalTime) ==> t == totalTime.value
    ensures !NumberTruthy(totalTime) ==> t == minTime
  {
    if NumberTruthy(totalTime) then totalTime.value else minTime
  }

  /**
   * `generateQuiz`: the guard chain in its fixed order, then the call to the generator with
   * the trimmed topic and the resolved time. Whatever reaches the generator satisfies the
   * configuration invariant: known difficulty and type, 1..20 questions, and a total time
   * between the derived minimum and thirty minutes.
   */
  function GenerateQuiz(body: QuizRequestBody): (r: Result<GeneratorCall, QuizError>)
    ensures !HasRequiredFields(body) ==> r == Failure(MissingRequiredFields)
    ensures r.Success? ==>
      && HasRequiredFields(body)
      && r.value.topic == Trim(body.topic.value)
      && r.value.difficulty == body.difficulty.value
      && r.value.questionType == body.questionType.value
      && r.value.numberOfQuestions == body.numberOfQuestions.value
      && r.value.difficulty in ValidDifficulties
      && r.value.questionType in ValidQuestionTypes
      && MinQuestions <= r.value.numberOfQuestions <= MaxQuestions
      && SuggestedMinTime(r.value.difficulty, r.value.questionType, r.value.numberOfQuestions)
           <= r.value.totalTime <= MaxTime
  {
    if !HasRequiredFields(body) then Failure(MissingRequiredFields)
    else
      var difficulty := body.difficulty.value;
      var questionType := body.questionType.value;
      var n := body.numberOfQuestions.value;
      if difficulty !in ValidDifficulties then Failure(InvalidDifficulty)
      else if questionType !in ValidQuestionTypes then Failure(InvalidQuestionType)
      else if n < MinQuestions || n > MaxQuestions then Failure(QuestionCountOutOfRange)
      else
        var minTime := SuggestedMinTime(difficulty, questionType, n);
        var totalTime := ResolveTotalTime(body.totalTime, minTime);
        if totalTime < minTime then Failure(TotalTimeTooLow(MinutesRoundedUp(minTime)))
        else if totalTime > MaxTime then Failure(TotalTimeTooHigh)
        else Success(GeneratorCall(Trim(body.topic.value), difficulty, questionType, n, totalTime))
  }

  /**
   * The `message` of each 400 answer of `generateQuiz`. The texts agree with the guards:
   * the missing-fields text names the four checked fields, the difficulty and type texts list
   * every accepted value, the count text gives the limits 1 and 20, the too-low text the minutes it was built from, the too-high text 1800 s in
   * minutes.
   */
  function Message(e: QuizError): (m: string)
    ensures e == MissingRequiredFields ==>
      forall i :: 0 <= i < |RequiredFields| ==> Includes(m, RequiredFields[i])
    ensures e == InvalidDifficulty ==>
      forall i :: 0 <= i < |ValidDifficulties| ==> Includes(m, ValidDifficulties[i])
    ensures e == InvalidQuestionType ==>
      forall i :: 0 <= i < |ValidQuestionTypes| ==> Includes(m, ValidQuestionTypes[i])
    ensures e == QuestionCountOutOfRange ==>
      Includes(m, IntToDecimal(MinQuestions)) && Includes(m, IntToDecimal(MaxQuestions))
    ensures e.TotalTimeTooLow? ==> Includes(m, IntToDecimal(e.minutes))
    ensures e == TotalTimeTooHigh ==> Includes(m, IntToDecimal(MaxTime / 60))
  {
    match e
    case MissingRequiredFields =>
      ListIncludesEach("Missing required fields: ", RequiredFields, ", ");
      "Missing required fields: " + Join(RequiredFields, ", ")
    case InvalidDifficulty =>
      ListIncludesEach("Invalid difficulty. Must be one of: ", ValidDifficulties, ", ");
      "Invalid difficulty. Must be one of: " + Join(ValidDifficulties, ", ")
    case InvalidQuestionType =>
      ListIncludesEach("Invalid question type. Must be one of: ", ValidQuestionTypes, ", ");
      "Invalid question type. Must be one of: " + Join(ValidQuestionTypes, ", ")
    case QuestionCountOutOfRange =>
      SmallDecimals();
      IncludesPiece("Number of questions must be between ", "1", " and ");
      IncludesAppended("Number of questions must be between " + "1" + " and ", "20", "1");
      IncludesAppended("Number of questions must be between " + "1" + " and ", "20", "20");
      "Number of questions must be between " + "1" + " and " + "20"
    case TotalTimeTooLow(minutes) =>
      IncludesPiece("Total time must be at least ", IntToDecimal(minutes), " minutes for this configuration");
      "Total time must be at least " + IntToDecimal(minutes) + " minutes for this configuration"
    case TotalTimeTooHigh =>
      SmallDecimals();
      IncludesPiece("Total time cannot exceed ", "30", " minutes");
      "Total time cannot exceed " + "30" + " minutes"
  }

  /** The guards of the first four checks, named for the ordering lemma. */
  predicate FieldsValid(body: QuizRequestBody)
    requires HasRequiredFields(body)
  {
    && body.difficulty.value in ValidDifficulties
    && body.questionType.value in ValidQuestionTypes
    && MinQuestions <= body.numberOfQuestions.value <= MaxQuestions
  }

  /**
   * The first failing guard decides the answer: presence, then difficulty, then question
   * type, then count, then too little time, then too much.
   */
  lemma FirstFailureReported(body: QuizRequestBody)
    ensures HasRequiredFields(body) && body.difficulty.value !in ValidDifficulties
      ==> GenerateQuiz(body) == Failure(InvalidDifficulty)
    ensures HasRequiredFields(body) && body.difficulty.value in ValidDifficulties
      && body.questionType.value !in ValidQuestionTypes
      ==> GenerateQuiz(body) == Failure(InvalidQuestionType)
    ensures HasRequiredFields(body) && body.difficulty.value in ValidDifficulties
      && body.questionType.value in ValidQuestionTypes
      && !(MinQuestions <= body.numberOfQuestions.value <= MaxQuestions)
      ==> GenerateQuiz(body) == Failure(QuestionCountOutOfRange)
    ensures HasRequiredFields(body) && FieldsValid(body)
      ==> var m := SuggestedMinTime(body.difficulty.value, body.questionType.value,
                                    body.numberOfQuestions.value);
          var t := ResolveTotalTime(body.totalTime, m);
          && (t < m ==> GenerateQuiz(body) == Failure(TotalTimeTooLow(MinutesRoundedUp(m))))
          && (m <= t && t > MaxTime ==> GenerateQuiz(body) == Failure(TotalTimeTooHigh))
          && (m <= t <= MaxTime ==> GenerateQuiz(body).Success?)
  {
  }

  /** Once the difficulty guard has passed, the 45-second fallback is never what is used. */
  lemma FallbackUnreachableAfterGuard(difficulty: string, questionType: string)
    requires difficulty in ValidDifficulties
    ensures TableEntry(difficulty, questionType).Some?
    ensures TimePerQuestion(difficulty, questionType) == TableEntry(difficulty, questionType).value
  {
  }

  /** For an accepted count the minimum lies in 20..1200 seconds, well below the ceiling. */
  lemma {:induction false} MinTimeBounds(difficulty: string, questionType: string, n: int)
    requires MinQuestions <= n <= MaxQuestions
    ensures 20 <= SuggestedMinTime(difficulty, questionType, n) <= 1200 < MaxTime
  {
    var t := TimePerQuestion(difficulty, questionType);
    assert t * n <= 60 * n by {
      assert (60 - t) * n >= 0;
    }
  }

  /** More questions never lower the minimum. */
  lemma {:induction false} MinTimeMonotonic(difficulty: string, questionType: string, n: int, m: int)
    requires n <= m
    ensures SuggestedMinTime(difficulty, questionType, n) <= SuggestedMinTime(difficulty, questionType, m)
  {
    var t := TimePerQuestion(difficulty, questionType);
    assert t * m - t * n == t * (m - n);
  }

  /**
   * Without a usable `totalTime` (missing or zero), every request that passes the first four
   * guards is accepted, and the generator gets exactly the minimum time.
   */
  lemma NoTimeMeansMinimum(body: QuizRequestBody)
    requires HasRequiredFields(body) && FieldsValid(body)
    requires !NumberTruthy(body.totalTime)
    ensures GenerateQuiz(body).Success?
    ensures GenerateQuiz(body).value.totalTime
      == SuggestedMinTime(body.difficulty.value, body.questionType.value, body.numberOfQuestions.value)
  {
    MinTimeBounds(body.difficulty.value, body.questionType.value, body.numberOfQuestions.value);
  }

  /**
   * A supplied non-zero time `t` passes the time guards exactly when min <= t <= 1800; below
   * the minimum the answer reports the minimum rounded up to whole minutes.
   */
  lemma SuppliedTimeAcceptedIff(body: QuizRequestBody)
    requires HasRequiredFields(body) && FieldsValid(body)
    requires NumberTruthy(body.totalTime)
    ensures var m := SuggestedMinTime(body.difficulty.value, body.questionType.value,
                                      body.numberOfQuestions.value);
            var t := body.totalTime.value;
            && (GenerateQuiz(body).Success? <==> m <= t <= MaxTime)
            && (GenerateQuiz(body).Success? ==> GenerateQuiz(body).value.totalTime == t)
            && (t < m ==> GenerateQuiz(body) == Failure(TotalTimeTooLow(MinutesRoundedUp(m))))
  {
  }

  /**
   * The topic guard is truthiness only: two bodies that differ only in a present, non-empty
   * topic get the same verdict, so a one-character topic is accepted like any other.
   */
  lemma TopicOnlyCheckedForPresence(body: QuizRequestBody, topic: string)
    requires topic != ""
    requires StringTruthy(body.topic)
    ensures GenerateQuiz(body.(topic := Some(topic))).Success? <==> GenerateQuiz(body).Success?
    ensures GenerateQuiz(body).Failure? ==>
      GenerateQuiz(body.(topic := Some(topic))) == GenerateQuiz(body)
  {
  }

  /** A topic of nothing but white space passes every guard and reaches the generator as "". */
  lemma {:induction false} BlankTopicForwardedEmpty(body: QuizRequestBody)
    requires HasRequiredFields(body)
    requires AllWhiteSpace(body.topic.value)
    requires GenerateQuiz(body).Success?
    ensures GenerateQuiz(body).value.topic == ""
  {
    TrimEmptyIff(body.topic.value);
  }

  /** The smallest such request: two spaces, easy, mcq, five questions, no time. */
  lemma BlankTopicExample()
    ensures GenerateQuiz(QuizRequestBody(Some("  "), Some("easy"), Some("mcq"), Some(5), None))
      == Success(GeneratorCall("", "easy", "mcq", 5, 150))
  {
    var body := QuizRequestBody(Some("  "), Some("easy"), Some("mcq"), Some(5), None);
    assert HasRequiredFields(body);
    assert SuggestedMinTime("easy", "mcq", 5) == 150;
    assert "easy" in ValidDifficulties && "mcq" in ValidQuestionTypes;
    assert GenerateQuiz(body).Success?;
    assert IsWhiteSpace(' ');
    BlankTopicForwardedEmpty(body);
  }

  /**
   * Worked requests: five easy mcq questions need 150 s, so 100 s is refused with "at least
   * 3 minutes"; once presence, difficulty and type have passed, 21 questions are refused on
   * the count.
   */
  lemma TimeAndCountScenarios(body: QuizRequestBody)
    ensures GenerateQuiz(QuizRequestBody(Some("History"), Some("easy"), Some("mcq"), Some(5), Some(100)))
      == Failure(TotalTimeTooLow(3))
    ensures HasRequiredFields(body) && body.difficulty.value in ValidDifficulties
      && body.questionType.value in ValidQuestionTypes && body.numberOfQuestions == Some(21)
      ==> GenerateQuiz(body) == Failure(QuestionCountOutOfRange)
  {
    var b := QuizRequestBody(Some("History"), Some("easy"), Some("mcq"), Some(5), Some(100));
    assert HasRequiredFields(b);
    assert "easy" in ValidDifficulties && "mcq" in ValidQuestionTypes;
    assert SuggestedMinTime("easy", "mcq", 5) == 150;
    assert MinutesRoundedUp(150) == 3;
  }

  /** The request a generator call corresponds to, resubmitted as a body. */
  function BodyOf(call: GeneratorCall): (body: QuizRequestBody)
    ensures body.topic == Some(call.topic) && body.difficulty == Some(call.difficulty)
    ensures body.questionType == Some(call.questionType)
    ensures body.numberOfQuestions == Some(call.numberOfQuestions)
    ensures body.totalTime == Some(call.totalTime)
  {
    QuizRequestBody(Some(call.topic), Some(call.difficulty), Some(call.questionType),
                    Some(call.numberOfQuestions), Some(call.totalTime))
  }

  /** The configuration invariant every forwarded call satisfies. */
  predicate WellFormedCall(call: GeneratorCall) {
    && call.difficulty in ValidDifficulties
    && call.questionType in ValidQuestionTypes
    && MinQuestions <= call.numberOfQuestions <= MaxQuestions
    && SuggestedMinTime(call.difficulty, call.questionType, call.numberOfQuestions)
         <= call.totalTime <= MaxTime
  }

  /** Resubmitting a well-formed call with a trimmed, non-blank topic is accepted unchanged. */
  lemma ResubmitAccepted(call: GeneratorCall)
    requires WellFormedCall(call)
    requires call.topic != "" && Trim(call.topic) == call.topic
    ensures GenerateQuiz(BodyOf(call)) == Success(call)
  {
    var again := BodyOf(call);
    MinTimeBounds(call.difficulty, call.questionType, call.numberOfQuestions);
    assert HasRequiredFields(again) && FieldsValid(again);
    assert ResolveTotalTime(again.totalTime,
      SuggestedMinTime(call.difficulty, call.questionType, call.numberOfQuestions)) == call.totalTime;
  }

  /**
   * Validation is idempotent on what it accepts, except for a blank topic: validating the
   * normalised request again gives back the same call when its topic is not empty, and the
   * "missing fields" answer when a topic of spaces was trimmed to nothing.
   */
  lemma {:induction false} RevalidationIdempotent(body: QuizRequestBody)
    requires GenerateQuiz(body).Success?
    ensures var call := GenerateQuiz(body).value;
            && (call.topic != "" ==> GenerateQuiz(BodyOf(call)) == Success(call))
            && (call.topic == "" ==> GenerateQuiz(BodyOf(call)) == Failure(MissingRequiredFields))
  {
    var call := GenerateQuiz(body).value;
    assert WellFormedCall(call);
    TrimIdempotent(body.topic.value);
    if call.topic != "" {
      ResubmitAccepted(call);
    }
  }

  /** The fields `generateExplanation` destructures from `req.body`. */
  datatype ExplanationRequestBody = ExplanationRequestBody(
    question: Option<string>,
    correctAnswer: Option<string>,
    userAnswer: Option<string>)

  /** The arguments `geminiService.generateExplanation` receives. */
  datatype ExplanationCall = ExplanationCall(question: string, correctAnswer: string, userAnswer: string)

  /** The single 400 answer of `generateExplanation`. */
  datatype ExplanationError = MissingExplanationFields

  /** The fields the explanation guard checks, in the order its text lists them. */
  const ExplanationFields: seq<string> := ["question", "correctAnswer", "userAnswer"]

  /** The text names each of the three fields the guard checks. */
  function ExplanationMessage(e: ExplanationError): (m: string)
    ensures forall i :: 0 <= i < |ExplanationFields| ==> Includes(m, ExplanationFields[i])
  {
    ListIncludesEach("Missing required fields: ", ExplanationFields, ", ");
    "Missing required fields: " + Join(ExplanationFields, ", ")
  }

  /**
   * `generateExplanation`: rejected exactly when one of the three fields is falsy; otherwise
   * the three trimmed strings go to the generator, in order.
   */
  function GenerateExplanation(body: ExplanationRequestBody): (r: Result<ExplanationCall, ExplanationError>)
    ensures r.Failure? <==>
      !(StringTruthy(body.question) && StringTruthy(body.correctAnswer) && StringTruthy(body.userAnswer))
    ensures r.Success? ==>
      r.value == ExplanationCall(Trim(body.question.value), Trim(body.correctAnswer.value),
                                 Trim(body.userAnswer.value))
  {
    if !(StringTruthy(body.question) && StringTruthy(body.correctAnswer) && StringTruthy(body.userAnswer))
    then Failure(MissingExplanationFields)
    else Success(ExplanationCall(Trim(body.question.value), Trim(body.correctAnswer.value),
                                 Trim(body.userAnswer.value)))
  }
}
