/**
 * The client and the server each carry their own copy of the timing table and of the
 * configuration checks. This module relates the two copies: same table, same ceiling, same
 * messages, and every draft the form lets through is one the server accepts.
 */
module ClientServerAgreement {
  import opened Wrappers
  import opened JsText
  import Server = QuizController
  import Client = QuizConfigModal

  /** The values `QUIZ_CONSTANTS` is expected to hold for the keys the timing table uses. */
  predicate StandardConstants(k: Client.QuizConstants) {
    k.easy == "easy" && k.medium == "medium" && k.hard == "hard" && k.mcq == "mcq"
  }

  /** The request body the client sends for a draft: every field present, as it stands. */
  function RequestOf(config: Client.QuizConfig): (body: Server.QuizRequestBody)
    ensures body.topic == Some(config.topic) && body.difficulty == Some(config.difficulty)
    ensures body.questionType == Some(config.questionType)
    ensures body.numberOfQuestions == Some(config.numberOfQuestions)
    ensures body.totalTime == Some(config.totalTime)
  {
    Server.QuizRequestBody(Some(config.topic), Some(config.difficulty), Some(config.questionType),
                           Some(config.numberOfQuestions), Some(config.totalTime))
  }

  /**
   * The two hand-copied tables agree on every difficulty, question type and count, the
   * 45-second fallback included, provided the client's constants have their usual values.
   */
  lemma TablesAgree(k: Client.QuizConstants, difficulty: string, questionType: string, n: int)
    requires StandardConstants(k)
    ensures Client.TimePerQuestion(k, difficulty, questionType)
         == Server.TimePerQuestion(difficulty, questionType)
    ensures Client.SuggestedTime(k, Client.QuizConfig("", difficulty, questionType, n, 0))
         == Server.SuggestedMinTime(difficulty, questionType, n)
  {
  }

  /** The agreement rests on the constants: with a different spelling of EASY the copies part ways. */
  lemma TablesDisagreeOnOtherConstants()
    ensures var k := Client.QuizConstants("Easy", "medium", "hard", "mcq", 10);
            Client.TimePerQuestion(k, "easy", "mcq") != Server.TimePerQuestion("easy", "mcq")
  {
    var k := Client.QuizConstants("Easy", "medium", "hard", "mcq", 10);
    assert Client.TimePerQuestion(k, "easy", "mcq") == 45;
    assert Server.TimePerQuestion("easy", "mcq") == 30;
  }

  /** Both sides cap the time at thirty minutes and word their time errors identically. */
  lemma LimitsAndMessagesAgree(minutes: int)
    ensures Client.MaxTime == Server.MaxTime == 30 * 60
    ensures Client.SubmitMessage(Client.TotalTimeTooLow(minutes))
         == Server.Message(Server.TotalTimeTooLow(minutes))
    ensures Client.SubmitMessage(Client.TotalTimeTooHigh) == Server.Message(Server.TotalTimeTooHigh)
  {
  }

  /**
   * Every draft the form accepts at submit is accepted by the server, provided the
   * difficulty and question type are among the server's values and the count is in 1..20:
   * the trimmed topic is non-empty so the topic is truthy, and the time is at least the
   * minimum (at least 20 s), so it is truthy and in range. The generator then gets the
   * trimmed topic and the draft's own time.
   */
  lemma {:induction false} ClientAcceptedImpliesServerAccepts(k: Client.QuizConstants, config: Client.QuizConfig)
    requires StandardConstants(k)
    requires config.difficulty in Server.ValidDifficulties
    requires config.questionType in Server.ValidQuestionTypes
    requires Server.MinQuestions <= config.numberOfQuestions <= Server.MaxQuestions
    requires Client.SubmitChecks(k, config).Success?
    ensures Server.GenerateQuiz(RequestOf(config))
         == Success(Server.GeneratorCall(Trim(config.topic), config.difficulty, config.questionType,
                                         config.numberOfQuestions, config.totalTime))
  {
    var body := RequestOf(config);
    var n := config.numberOfQuestions;
    var minTime := Server.SuggestedMinTime(config.difficulty, config.questionType, n);
    TablesAgree(k, config.difficulty, config.questionType, n);
    assert Client.SuggestedTime(k, config) == minTime;
    Server.MinTimeBounds(config.difficulty, config.questionType, n);
    assert config.topic != "";
    assert Server.HasRequiredFields(body) && Server.FieldsValid(body);
    assert Server.ResolveTotalTime(body.totalTime, minTime) == config.totalTime;
  }

  /**
   * The converse fails: the server is the more lenient side. A topic that trims to one
   * character is refused by the form, which asks for two, yet the server accepts it, since
   * it only asks for the topic to be non-empty.
   */
  lemma {:induction false} ServerAcceptsShortTopic(k: Client.QuizConstants, config: Client.QuizConfig)
    requires StandardConstants(k)
    requires |Trim(config.topic)| == 1
    requires config.difficulty in Server.ValidDifficulties
    requires config.questionType in Server.ValidQuestionTypes
    requires Server.MinQuestions <= config.numberOfQuestions <= Server.MaxQuestions
    requires Client.SuggestedTime(k, config) <= config.totalTime <= Client.MaxTime
    ensures Client.SubmitChecks(k, config) == Failure(Client.TopicTooShort)
    ensures Server.GenerateQuiz(RequestOf(config)).Success?
  {
    var body := RequestOf(config);
    var minTime := Server.SuggestedMinTime(config.difficulty, config.questionType, config.numberOfQuestions);
    TablesAgree(k, config.difficulty, config.questionType, config.numberOfQuestions);
    assert Client.SuggestedTime(k, config) == minTime;
    assert config.topic != "";
    assert Server.HasRequiredFields(body) && Server.FieldsValid(body);
    assert Server.ResolveTotalTime(body.totalTime, minTime) == config.totalTime;
  }

  /**
   * A time of zero is refused by the form as too low, while the server reads it as "no
   * time given" and accepts the request with the minimum.
   */
  lemma {:induction false} ServerAcceptsZeroTime(k: Client.QuizConstants, config: Client.QuizConfig)
    requires StandardConstants(k)
    requires config.topic != ""
    requires config.difficulty in Server.ValidDifficulties
    requires config.questionType in Server.ValidQuestionTypes
    requires Server.MinQuestions <= config.numberOfQuestions <= Server.MaxQuestions
    requires config.totalTime == 0
    ensures Client.SubmitChecks(k, config).Failure?
    ensures |Trim(config.topic)| >= 2 ==>
      Client.SubmitChecks(k, config)
        == Failure(Client.TotalTimeTooLow(MinutesRoundedUp(Client.SuggestedTime(k, config))))
    ensures Server.GenerateQuiz(RequestOf(config)).Success?
    ensures Server.GenerateQuiz(RequestOf(config)).value.totalTime == Client.SuggestedTime(k, config)
  {
    var body := RequestOf(config);
    assert Server.HasRequiredFields(body) && Server.FieldsValid(body);
    Server.NoTimeMeansMinimum(body);
    TablesAgree(k, config.difficulty, config.questionType, config.numberOfQuestions);
  }

  /**
   * A form session that ends in a submit: after the timer effect has run on a draft with the
   * server's difficulty and type values and a count in range, a topic of two or more
   * characters and a time within thirty minutes are all it takes for both sides to accept.
   */
  lemma {:induction false} SyncedDraftAcceptedByBoth(k: Client.QuizConstants, draft: Client.QuizConfig)
    requires StandardConstants(k)
    requires draft.difficulty in Server.ValidDifficulties
    requires draft.questionType in Server.ValidQuestionTypes
    requires Server.MinQuestions <= draft.numberOfQuestions <= Server.MaxQuestions
    requires |Trim(draft.topic)| >= 2
    requires Client.Synced(k, draft).totalTime <= Client.MaxTime
    ensures Client.SubmitChecks(k, Client.Synced(k, draft)).Success?
    ensures Server.GenerateQuiz(RequestOf(Client.Synced(k, draft))).Success?
  {
    ClientAcceptedImpliesServerAccepts(k, Client.Synced(k, draft));
  }
}
