/**
 * The quiz configuration form of the browser client
 * (client/src/components/home/QuizConfigModal.jsx).
 *
 * The pure parts are functions: the timing table behind `getSuggestedTime`, the raise-only
 * clamp of the timer effect, the topic filter, the submit guard chain, reset, and
 * `formatTime`. The component's state (`config`, `filteredTopics`, `showTopicSuggestions`)
 * is the class `ConfigForm`, one method per event handler.
 *
 * `QUIZ_CONSTANTS` and `QUIZ_TOPICS` live in a module that is not part of this model; they
 * are parameters here (`QuizConstants` and the `topics` list).
 */
module QuizConfigModal {
  import opened Wrappers
  import opened JsText

  /**
   * The members of `QUIZ_CONSTANTS` that the modelled handlers read; `MIN_QUESTIONS` and
   * `MAX_QUESTIONS` only bound the slider, which is not modelled.
   */
  datatype QuizConstants = QuizConstants(
    easy: string,
    medium: string,
    hard: string,
    mcq: string,
    defaultQuestions: int)

  /** The draft configuration held in the `config` state. */
  datatype QuizConfig = QuizConfig(
    topic: string,
    difficulty: string,
    questionType: string,
    numberOfQuestions: int,
    totalTime: int)

  /** The `totalTime` the `config` state starts with. */
  const InitialTotalTime: int := 600
  /** `getMaxTime()`: thirty minutes. */
  const MaxTime: int := 1800
  /** Seconds per question when the difficulty is none of the table's keys. */
  const FallbackTimePerQuestion: int := 45

  /**
   * `baseTimePerQuestion[config.difficulty] || 45`. The table is an object literal with
   * computed keys, so if two difficulty constants were equal the later key would win: the
   * lookup tries HARD, then MEDIUM, then EASY.
   */
  function TimePerQuestion(k: QuizConstants, difficulty: string, questionType: string): (t: int)
    ensures 20 <= t <= 60
    ensures difficulty != k.easy && difficulty != k.medium && difficulty != k.hard
      ==> t == FallbackTimePerQuestion
    ensures difficulty == k.hard ==> t == (if questionType == k.mcq then 60 else 45)
  {
    var isMcq := questionType == k.mcq;
    if difficulty == k.hard then (if isMcq then 60 else 45)
    else if difficulty == k.medium then (if isMcq then 45 else 30)
    else if difficulty == k.easy then (if isMcq then 30 else 20)
    else FallbackTimePerQuestion
  }

  /** `getSuggestedTime()` (and `getMinTime()`, which returns the same): per-question time times count. */
  function SuggestedTime(k: QuizConstants, config: QuizConfig): (s: int)
    ensures config.numberOfQuestions >= 1 ==> s >= 20 * config.numberOfQuestions
    ensures config.numberOfQuestions >= 0 ==> s <= 60 * config.numberOfQuestions
  {
    TimePerQuestion(k, config.difficulty, config.questionType) * config.numberOfQuestions
  }

  /** The initial `config` state. */
  function InitialConfig(k: QuizConstants): (c: QuizConfig)
    ensures c.topic == "" && c.difficulty == k.medium && c.questionType == k.mcq
    ensures c.numberOfQuestions == k.defaultQuestions && c.totalTime == InitialTotalTime
  {
    QuizConfig("", k.medium, k.mcq, k.defaultQuestions, InitialTotalTime)
  }

  /**
   * The timer effect: `totalTime` becomes `max(suggested, totalTime)`. It is raised to the
   * suggestion when below it and otherwise kept, and no other field changes.
   */
  function Synced(k: QuizConstants, config: QuizConfig): (r: QuizConfig)
    ensures r.totalTime >= SuggestedTime(k, config)
    ensures r.totalTime >= config.totalTime
    ensures r.totalTime == SuggestedTime(k, config) || r.totalTime == config.totalTime
    ensures r.(totalTime := config.totalTime) == config
  {
    var suggested := SuggestedTime(k, config);
    config.(totalTime := if suggested > config.totalTime then suggested else config.totalTime)
  }

  /** Running the effect a second time changes nothing. */
  lemma SyncIdempotent(k: QuizConstants, config: QuizConfig)
    ensures Synced(k, Synced(k, config)) == Synced(k, config)
  {
  }

  /** A time the user has raised above the suggestion survives the effect. */
  lemma SyncKeepsRaisedTime(k: QuizConstants, config: QuizConfig)
    requires config.totalTime >= SuggestedTime(k, config)
    ensures Synced(k, config) == config
  {
  }

  /** The `config` that `handleReset` sets: defaults, with the suggestion of the config BEFORE the reset. */
  function ResetConfig(k: QuizConstants, previous: QuizConfig): (c: QuizConfig)
    ensures c.(totalTime := InitialTotalTime) == InitialConfig(k)
    ensures c.totalTime == SuggestedTime(k, previous)
  {
    QuizConfig("", k.medium, k.mcq, k.defaultQuestions, SuggestedTime(k, previous))
  }

  /**
   * After a reset and the effect it triggers, the timer is the larger of the old and the new
   * suggestion: a reset from a longer configuration keeps the longer time.
   */
  lemma ResetThenSync(k: QuizConstants, previous: QuizConfig)
    ensures var old_s := SuggestedTime(k, previous);
            var new_s := SuggestedTime(k, InitialConfig(k));
            Synced(k, ResetConfig(k, previous)).totalTime == if old_s > new_s then old_s else new_s
  {
  }

  /** With the usual constants and ten default questions, resetting a 20-question hard mcq quiz keeps 1200 s, not 450 s. */
  lemma ResetKeepsStaleSuggestion()
    ensures var k := QuizConstants("easy", "medium", "hard", "mcq", 10);
            var previous := QuizConfig("History", "hard", "mcq", 20, 1200);
            && SuggestedTime(k, InitialConfig(k)) == 450
            && Synced(k, ResetConfig(k, previous)).totalTime == 1200
  {
    var k := QuizConstants("easy", "medium", "hard", "mcq", 10);
    assert TimePerQuestion(k, "medium", "mcq") == 45;
    assert TimePerQuestion(k, "hard", "mcq") == 60;
  }

  /**
   * The filter predicate: lower-cased `topic` includes lower-cased `value`. A topic never
   * matches a longer text, and always matches its own name typed in any letter case.
   */
  predicate TopicMatches(topic: string, value: string)
    ensures TopicMatches(topic, value) ==> |value| <= |topic|
    ensures ToLower(topic) == ToLower(value) ==> TopicMatches(topic, value)
  {
    Includes(ToLower(topic), ToLower(value))
  }

  /** `QUIZ_TOPICS.filter(...)`: never longer than the list it filters. */
  function FilterTopics(topics: seq<string>, value: string): (r: seq<string>)
    ensures |r| <= |topics|
  {
    if topics == [] then [] else Kept(topics[0], value) + FilterTopics(topics[1..], value)
  }

  /** What the filter keeps of a single topic. */
  function Kept(topic: string, value: string): (r: seq<string>)
    ensures r == [] || r == [topic]
    ensures r == [topic] <==> TopicMatches(topic, value)
  {
    if TopicMatches(topic, value) then [topic] else []
  }

  /** The filtered list holds exactly the topics that match: none dropped, none added. */
  lemma {:induction false} FilterMembership(topics: seq<string>, value: string)
    ensures forall t :: t in FilterTopics(topics, value) <==> t in topics && TopicMatches(t, value)
  {
    if topics != [] {
      FilterMembership(topics[1..], value);
      assert topics == [topics[0]] + topics[1..];
    }
  }

  /** Every entry of the filtered list matches. */
  lemma {:induction false} FilterAllMatch(topics: seq<string>, value: string)
    ensures forall i :: 0 <= i < |FilterTopics(topics, value)| ==> TopicMatches(FilterTopics(topics, value)[i], value)
  {
    FilterMembership(topics, value);
    var r := FilterTopics(topics, value);
    forall i | 0 <= i < |r| ensures TopicMatches(r[i], value) {
      assert r[i] in r;
    }
  }

  /** Filtering keeps the original order: it distributes over concatenation. */
  lemma {:induction false} FilterKeepsOrder(a: seq<string>, b: seq<string>, value: string)
    ensures FilterTopics(a + b, value) == FilterTopics(a, value) + FilterTopics(b, value)
  {
    if a == [] {
      assert a + b == b;
    } else {
      calc {
        FilterTopics(a + b, value);
        { assert (a + b)[0] == a[0] && (a + b)[1..] == a[1..] + b; }
        Kept(a[0], value) + FilterTopics(a[1..] + b, value);
        { FilterKeepsOrder(a[1..], b, value); }
        Kept(a[0], value) + (FilterTopics(a[1..], value) + FilterTopics(b, value));
      }
    }
  }

  /** A topic list in which every entry matches comes through the filter unchanged. */
  lemma {:induction false} FilterKeepsAllMatching(topics: seq<string>, value: string)
    requires forall i :: 0 <= i < |topics| ==> TopicMatches(topics[i], value)
    ensures FilterTopics(topics, value) == topics
  {
    if topics != [] {
      FilterKeepsAllMatching(topics[1..], value);
    }
  }

  /** Filtering what was already filtered by the same text changes nothing. */
  lemma FilterIdempotent(topics: seq<string>, value: string)
    ensures FilterTopics(FilterTopics(topics, value), value) == FilterTopics(topics, value)
  {
    FilterAllMatch(topics, value);
    FilterKeepsAllMatching(FilterTopics(topics, value), value);
  }

  /** The toast errors of `handleSubmit`, in the order their guards run. */
  datatype SubmitError =
    | TopicMissing
    | TopicTooShort
    | TotalTimeTooLow(minutes: int)
    | TotalTimeTooHigh

  /**
   * The guard chain of `handleSubmit`. A draft passes exactly when its trimmed topic has at
   * least two characters and its time lies between the suggestion and thirty minutes; what
   * is passed on is the draft itself, topic untrimmed.
   */
  function SubmitChecks(k: QuizConstants, config: QuizConfig): (r: Result<QuizConfig, SubmitError>)
    ensures r.Success? <==>
      |Trim(config.topic)| >= 2 && SuggestedTime(k, config) <= config.totalTime <= MaxTime
    ensures r.Success? ==> r.value == config
    ensures Trim(config.topic) == "" ==> r == Failure(TopicMissing)
  {
    var topic := Trim(config.topic);
    if topic == "" then Failure(TopicMissing)
    else if |topic| < 2 then Failure(TopicTooShort)
    else
      var minTime := SuggestedTime(k, config);
      if config.totalTime < minTime then Failure(TotalTimeTooLow(MinutesRoundedUp(minTime)))
      else if config.totalTime > MaxTime then Failure(TotalTimeTooHigh)
      else Success(config)
  }

  /** The first failing guard decides the toast: empty topic, short topic, too little time, too much. */
  lemma SubmitFirstFailureReported(k: QuizConstants, config: QuizConfig)
    ensures |Trim(config.topic)| == 1 ==> SubmitChecks(k, config) == Failure(TopicTooShort)
    ensures |Trim(config.topic)| >= 2 && config.totalTime < SuggestedTime(k, config)
      ==> SubmitChecks(k, config) == Failure(TotalTimeTooLow(MinutesRoundedUp(SuggestedTime(k, config))))
    ensures |Trim(config.topic)| >= 2 && SuggestedTime(k, config) <= config.totalTime
      && config.totalTime > MaxTime
      ==> SubmitChecks(k, config) == Failure(TotalTimeTooHigh)
  {
  }

  /** A topic of nothing but white space is refused as missing, whatever its length. */
  lemma {:induction false} BlankTopicRefused(k: QuizConstants, config: QuizConfig)
    requires AllWhiteSpace(config.topic)
    ensures SubmitChecks(k, config) == Failure(TopicMissing)
  {
    TrimEmptyIff(config.topic);
  }

  /** Once the timer effect has run, submit never complains that the time is too low. */
  lemma SyncedNeverTooLow(k: QuizConstants, config: QuizConfig)
    ensures !SubmitChecks(k, Synced(k, config)).Failure?
         || !SubmitChecks(k, Synced(k, config)).error.TotalTimeTooLow?
  {
  }

  /**
   * The toast texts of `handleSubmit`. They agree with the checks: the short-topic text gives
   * the 2-character minimum, the too-low text the minutes it was built from, the too-high
   * text 1800 s in minutes.
   */
  function SubmitMessage(e: SubmitError): (m: string)
    ensures e == TopicMissing ==> Includes(m, "topic")
    ensures e == TopicTooShort ==> Includes(m, IntToDecimal(2))
    ensures e.TotalTimeTooLow? ==> Includes(m, IntToDecimal(e.minutes))
    ensures e == TotalTimeTooHigh ==> Includes(m, IntToDecimal(MaxTime / 60))
  {
    match e
    case TopicMissing =>
      IncludesPiece("Please enter a ", "topic", " for your quiz");
      "Please enter a " + "topic" + " for your quiz"
    case TopicTooShort =>
      SmallDecimals();
      IncludesPiece("Topic must be at least ", "2", " characters long");
      "Topic must be at least " + "2" + " characters long"
    case TotalTimeTooLow(minutes) =>
      IncludesPiece("Total time must be at least ", IntToDecimal(minutes), " minutes for this configuration");
      "Total time must be at least " + IntToDecimal(minutes) + " minutes for this configuration"
    case TotalTimeTooHigh =>
      SmallDecimals();
      IncludesPiece("Total time cannot exceed ", "30", " minutes");
      "Total time cannot exceed " + "30" + " minutes"
  }

  /** `seconds % 60` with JavaScript's `%`, whose result takes the sign of the dividend. */
  function JsRemainder60(seconds: int): (r: int)
    ensures seconds >= 0 ==> 0 <= r < 60 && 60 * (seconds / 60) + r == seconds
    ensures seconds < 0 ==> -60 < r <= 0 && (seconds - r) % 60 == 0
  {
    if seconds >= 0 then seconds % 60 else -((-seconds) % 60)
  }

  /**
   * `formatTime`: whole minutes (`Math.floor(seconds / 60)`; Dafny's division by a positive
   * number also rounds down), then the remaining seconds only when there are some. A
   * non-negative time starts with its whole minutes and "m" and ends in "s" exactly when
   * seconds are left over; a negative one shows as a negative count of whole minutes.
   */
  function FormatTime(seconds: int): (text: string)
    ensures seconds >= 0 ==>
      var mins := NatToDecimal(seconds / 60);
      |mins| + 1 <= |text| && text[..|mins| + 1] == mins + "m"
    ensures seconds >= 0 ==> (text[|text| - 1] == 's' <==> seconds % 60 != 0)
    ensures seconds < 0 ==> text == "-" + NatToDecimal(-(seconds / 60)) + "m"
  {
    var mins := seconds / 60;
    var secs := JsRemainder60(seconds);
    if secs > 0 then IntToDecimal(mins) + "m " + IntToDecimal(secs) + "s"
    else IntToDecimal(mins) + "m"
  }

  /** For a non-negative time the text is "Xm" on a whole minute and "Xm Ys" otherwise, with X*60 + Y = seconds and Y < 60. */
  lemma FormatTimeShape(seconds: nat)
    ensures var mins, secs := seconds / 60, seconds % 60;
            && mins * 60 + secs == seconds && 0 <= secs < 60
            && (secs == 0 ==> FormatTime(seconds) == NatToDecimal(mins) + "m")
            && (secs > 0 ==> FormatTime(seconds) == NatToDecimal(mins) + "m " + NatToDecimal(secs) + "s")
  {
  }

  /** The text before the first `ch` and the text after it, if `ch` occurs. */
  function SplitAtFirst(text: string, ch: char): (r: Option<(string, string)>)
    ensures r.Some? ==> text == r.value.0 + [ch] + r.value.1 && ch !in r.value.0
  {
    if text == [] then None
    else if text[0] == ch then Some(([], text[1..]))
    else match SplitAtFirst(text[1..], ch)
      case None => None
      case Some((before, after)) => Some(([text[0]] + before, after))
  }

  lemma {:induction false} SplitAtFirstOf(before: string, ch: char, after: string)
    requires ch !in before
    ensures SplitAtFirst(before + [ch] + after, ch) == Some((before, after))
  {
    var text := before + [ch] + after;
    if before == [] {
      assert text[0] == ch && text[1..] == after;
    } else {
      SplitAtFirstOf(before[1..], ch, after);
      assert text[0] == before[0] != ch;
      assert text[1..] == before[1..] + [ch] + after;
      assert [before[0]] + before[1..] == before;
    }
  }

  /** Reads back a text of the form "Xm" or "Xm Ys" as X*60 + Y seconds. */
  function ParseFormattedTime(text: string): Option<int> {
    match SplitAtFirst(text, 'm')
    case None => None
    case Some((mins, rest)) =>
      if !IsDecimal(mins) then None
      else if rest == "" then Some(60 * ParseDecimal(mins))
      else if |rest| >= 3 && rest[0] == ' ' && rest[|rest| - 1] == 's' && IsDecimal(rest[1..|rest| - 1])
      then Some(60 * ParseDecimal(mins) + ParseDecimal(rest[1..|rest| - 1]))
      else None
  }

  /** A decimal string holds no letter 'm', so the first 'm' after it is the separator. */
  lemma NoMInDecimal(n: nat)
    ensures 'm' !in NatToDecimal(n)
  {
    var d := NatToDecimal(n);
    forall k | 0 <= k < |d| ensures d[k] != 'm' { assert IsDigit(d[k]); }
  }

  lemma {:induction false} ParseWholeMinutes(mins: nat)
    ensures ParseFormattedTime(NatToDecimal(mins) + "m") == Some(60 * mins)
  {
    var m := NatToDecimal(mins);
    NoMInDecimal(mins);
    ParseNatToDecimal(mins);
    assert m + "m" == m + ['m'] + [];
    SplitAtFirstOf(m, 'm', []);
  }

  lemma {:induction false} ParseMinutesAndSeconds(mins: nat, secs: nat)
    ensures ParseFormattedTime(NatToDecimal(mins) + "m " + NatToDecimal(secs) + "s")
         == Some(60 * mins + secs)
  {
    var m := NatToDecimal(mins);
    var s := NatToDecimal(secs);
    NoMInDecimal(mins);
    ParseNatToDecimal(mins);
    ParseNatToDecimal(secs);
    var rest := " " + s + "s";
    assert m + "m " + s + "s" == m + ['m'] + rest;
    SplitAtFirstOf(m, 'm', rest);
    assert |rest| >= 3 && rest[0] == ' ' && rest[|rest| - 1] == 's';
    assert rest[1..|rest| - 1] == s;
    assert IsDecimal(m) && IsDecimal(s);
  }

  /** `formatTime` loses nothing on non-negative times: the text reads back as the same number of seconds. */
  lemma {:induction false} FormatTimeRoundTrip(seconds: nat)
    ensures ParseFormattedTime(FormatTime(seconds)) == Some(seconds)
  {
    FormatTimeShape(seconds);
    if seconds % 60 == 0 {
      ParseWholeMinutes(seconds / 60);
    } else {
      ParseMinutesAndSeconds(seconds / 60, seconds % 60);
    }
  }

  /**
   * The component's state. `config` is the draft; `filteredTopics` and
   * `showTopicSuggestions` drive the suggestion list under the topic input.
   */
  class ConfigForm {
    const constants: QuizConstants
    const topics: seq<string>
    var config: QuizConfig
    var filteredTopics: seq<string>
    var showTopicSuggestions: bool

    /** The three `useState` initialisers. */
    constructor (constants: QuizConstants, topics: seq<string>)
      ensures this.constants == constants && this.topics == topics
      ensures config == InitialConfig(constants)
      ensures filteredTopics == topics && !showTopicSuggestions
    {
      this.constants := constants;
      this.topics := topics;
      config := InitialConfig(constants);
      filteredTopics := topics;
      showTopicSuggestions := false;
    }

    /**
     * The `useEffect` body, which React runs after mounting and after every render in which
     * difficulty, question type or count changed: raise `totalTime` to the suggestion.
     */
    method SyncTotalTime()
      modifies this
      ensures config == Synced(constants, old(config))
      ensures filteredTopics == old(filteredTopics) && showTopicSuggestions == old(showTopicSuggestions)
    {
      var suggested := SuggestedTime(constants, config);
      config := config.(totalTime := if suggested > config.totalTime then suggested else config.totalTime);
    }

    /** `handleTopicChange`: set the topic, then filter the list (non-empty text) or reset it. */
    method HandleTopicChange(value: string)
      modifies this
      ensures config == old(config).(topic := value)
      ensures value != "" ==> filteredTopics == FilterTopics(topics, value) && showTopicSuggestions
      ensures value == "" ==> filteredTopics == topics && !showTopicSuggestions
    {
      config := config.(topic := value);
      if |value| > 0 {
        filteredTopics := FilterTopics(topics, value);
        showTopicSuggestions := true;
      } else {
        filteredTopics := topics;
        showTopicSuggestions := false;
      }
    }

    /** `handleTopicSelect`: take the chosen topic and hide the list. */
    method HandleTopicSelect(topic: string)
      modifies this
      ensures config == old(config).(topic := topic)
      ensures filteredTopics == old(filteredTopics) && !showTopicSuggestions
    {
      config := config.(topic := topic);
      showTopicSuggestions := false;
    }

    /** A difficulty button's `onClick`. */
    method SelectDifficulty(value: string)
      modifies this
      ensures config == old(config).(difficulty := value)
      ensures filteredTopics == old(filteredTopics) && showTopicSuggestions == old(showTopicSuggestions)
    {
      config := config.(difficulty := value);
    }

    /** A question-type button's `onClick`. */
    method SelectQuestionType(value: string)
      modifies this
      ensures config == old(config).(questionType := value)
      ensures filteredTopics == old(filteredTopics) && showTopicSuggestions == old(showTopicSuggestions)
    {
      config := config.(questionType := value);
    }

    /** The question-count slider's `onChange`. */
    method SetNumberOfQuestions(n: int)
      modifies this
      ensures config == old(config).(numberOfQuestions := n)
      ensures filteredTopics == old(filteredTopics) && showTopicSuggestions == old(showTopicSuggestions)
    {
      config := config.(numberOfQuestions := n);
    }

    /** The time slider's `onChange`. */
    method SetTotalTime(seconds: int)
      modifies this
      ensures config == old(config).(totalTime := seconds)
      ensures filteredTopics == old(filteredTopics) && showTopicSuggestions == old(showTopicSuggestions)
    {
      config := config.(totalTime := seconds);
    }

    /** The "Use Suggested" button: the timer becomes exactly the current suggestion. */
    method UseSuggested()
      modifies this
      ensures config == old(config).(totalTime := SuggestedTime(constants, old(config)))
      ensures filteredTopics == old(filteredTopics) && showTopicSuggestions == old(showTopicSuggestions)
    {
      config := config.(totalTime := SuggestedTime(constants, config));
    }

    /** `handleReset`: defaults, the pre-reset suggestion as timer, list hidden (but not refilled). */
    method HandleReset()
      modifies this
      ensures config == ResetConfig(constants, old(config))
      ensures filteredTopics == old(filteredTopics) && !showTopicSuggestions
    {
      var suggestedTime := SuggestedTime(constants, config);
      config := QuizConfig("", constants.medium, constants.mcq, constants.defaultQuestions, suggestedTime);
      showTopicSuggestions := false;
    }

    /**
     * `handleSubmit` up to the call of `generateQuiz`: either the toast it shows, or the
     * draft it hands to the generator. Nothing in the state changes either way.
     */
    method HandleSubmit() returns (r: Result<QuizConfig, SubmitError>)
      ensures r == SubmitChecks(constants, config)
      ensures r.Success? ==> r.value == config && |Trim(config.topic)| >= 2
    {
      var topic := Trim(config.topic);
      if topic == "" {
        return Failure(TopicMissing);
      }
      if |topic| < 2 {
        return Failure(TopicTooShort);
      }
      var minTime := SuggestedTime(constants, config);
      if config.totalTime < minTime {
        return Failure(TotalTimeTooLow(MinutesRoundedUp(minTime)));
      }
      if config.totalTime > MaxTime {
        return Failure(TotalTimeTooHigh);
      }
      return Success(config);
    }
  }
}
