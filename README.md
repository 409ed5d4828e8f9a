# QuizBot quiz configuration rule, modelled in Dafny

QuizBot lets a user configure a quiz in the browser (topic, difficulty, question type,
number of questions, total time). A server endpoint checks the same configuration before
it hands it to an external question generator. Both sides derive a minimum total time
from a per-question timing table: easy 30/20 s, medium 45/30 s, hard 60/45 s (multiple
choice / true-false), 45 s for an unknown difficulty. Both cap the total at 1800 s. Each
side carries its own hand-written copy of the table and of the checks.

This project models both copies and proves that they fit together:

- `wrappers.dfy`, module `Wrappers`: `Option` and `Result`.
- `js_text.dfy`, module `JsText`: the JavaScript built-ins the rule relies on.
  These are `trim` (the exact ECMA-262 white-space set), `toLowerCase`, `includes`,
  integer-to-decimal rendering in template literals, and `Math.ceil(x / 60)`.
- `quiz_controller.dfy`, module `QuizController`: the server controller as pure functions.
  `GenerateQuiz` maps an untyped request body (every field optional) to either the
  generator call or the 400 error. `GenerateExplanation` does the same for an explanation
  request.
- `quiz_config_modal.dfy`, module `QuizConfigModal`: the client form. The timing table,
  the timer clamp, the topic filter, the submit guard chain, reset and `formatTime` are
  pure functions. The component's state is the class `ConfigForm`, with one method per
  event handler.
- `client_server_agreement.dfy`, module `ClientServerAgreement`: lemmas that tie the two
  copies together. The tables agree, and every draft the form accepts at submit is
  accepted by the server.

`QUIZ_CONSTANTS` and `QUIZ_TOPICS` come from `client/src/utils/constants`, which is not
part of this model. They are parameters: `QuizConstants` and the `topics` list of
`ConfigForm`. Where a lemma needs their usual values ("easy", "medium", "hard", "mcq"),
it says so with the `StandardConstants` precondition.

Behaviour of the code that the model makes explicit:

- The server checks only that the topic is truthy; it has no length check. So a
  one-character topic is accepted, and a topic of spaces passes and reaches the generator
  as `""` (`TopicOnlyCheckedForPresence`, `ServerAcceptsShortTopic`,
  `BlankTopicForwardedEmpty`). Validating the forwarded request again is therefore not
  idempotent for such a topic (`RevalidationIdempotent`). The form refuses any topic that
  trims to fewer than two characters.
- The server treats `totalTime: 0` as "not given" and substitutes the minimum. The form
  refuses 0 for a question count of at least 1, with the too-low toast once the topic has
  two or more characters (`ServerAcceptsZeroTime`).
- `handleReset` stores the suggestion computed from the configuration *before* the reset,
  not from the defaults it restores. After the timer effect, the time is the larger of the
  old and the new suggestion (`ResetThenSync`, `ResetKeepsStaleSuggestion`). Reset also
  leaves `filteredTopics` as it was.
- The timer effect raises `totalTime` to `max(suggested, previous)`; it never lowers it
  (`Synced`).

## Model

| member | source | states |
|---|---|---|
| `JsText.Trim` | server/controllers/quizController.js:76 | `trim()` returns a contiguous slice of its input with only white space on either side, and the slice neither starts nor ends with white space |
| `JsText.TrimEmptyIff` | client/src/components/home/QuizConfigModal.jsx:78 | a string trims to empty exactly when it is all white space |
| `JsText.TrimIdempotent` | server/controllers/quizController.js:76 | trimming a trimmed string changes nothing |
| `JsText.ToLower` | client/src/components/home/QuizConfigModal.jsx:48 | `toLowerCase()` keeps the length and lowers each character in place |
| `JsText.Includes` | client/src/components/home/QuizConfigModal.jsx:48 | `includes` holds only of a piece no longer than the string, and every string includes itself |
| `JsText.NatToDecimal` | client/src/components/home/QuizConfigModal.jsx:126 | the decimal text of a number is a non-empty digit string with no leading zero, and it is "0" only for 0 |
| `JsText.ParseNatToDecimal` | client/src/components/home/QuizConfigModal.jsx:126 | reading the decimal text back gives the number: the rendering is injective |
| `JsText.IntToDecimal` | server/controllers/quizController.js:63 | `${i}` of an integer is its canonical decimal text, with a minus sign for a negative value, and the digits read back as the magnitude |
| `JsText.MinutesRoundedUp` | server/controllers/quizController.js:63 | `Math.ceil(s/60)` is the least m with s <= 60m |
| `QuizController.HasRequiredFields` | server/controllers/quizController.js:12 | the presence guard holds iff topic, difficulty and questionType are present and not "" and numberOfQuestions is present and not 0; totalTime is not required |
| `QuizController.Message` | server/controllers/quizController.js:13-71 | the 400 texts agree with the guards: the missing-fields text names the four checked fields, the difficulty and type texts list every accepted value, the count text gives 1 and 20, the too-low text the rounded-up minutes, the too-high text 1800 s as 30 minutes |
| `QuizController.TableEntry` | server/controllers/quizController.js:46-50 | the table has an entry exactly for easy, medium and hard, each between 20 and 60 s |
| `QuizController.TimePerQuestion` | server/controllers/quizController.js:51 | an unknown difficulty gets the 45 s fallback; every value is between 20 and 60 s |
| `QuizController.SuggestedMinTime` | server/controllers/quizController.js:45-53 | for n questions the minimum lies between 20n and 60n seconds |
| `QuizController.ResolveTotalTime` | server/controllers/quizController.js:56 | a truthy `totalTime` below 10^21 is used as given; a missing or zero one becomes the minimum (see "Left out" for larger values) |
| `QuizController.GenerateQuiz` | server/controllers/quizController.js:5-93 | a missing or falsy field gives the missing-fields 400 before any other check; whatever reaches the generator has a known difficulty and type, 1..20 questions, a time between the minimum and 1800 s (for integer `totalTime` bodies; a non-numeric string is not modelled), and the trimmed topic |
| `QuizController.FirstFailureReported` | server/controllers/quizController.js:12-72 | errors are decided in a fixed order: presence, difficulty, type, count, too low, too high; the first failure is the one reported, and passing all accepts |
| `QuizController.FallbackUnreachableAfterGuard` | server/controllers/quizController.js:23-53 | once the difficulty guard has passed, the time per question comes from the table and never from the fallback |
| `QuizController.MinTimeBounds` | server/controllers/quizController.js:37-58 | for 1..20 questions the minimum is between 20 and 1200 s, below the 1800 s ceiling |
| `QuizController.MinTimeMonotonic` | server/controllers/quizController.js:45-53 | the minimum never decreases as the question count grows |
| `QuizController.NoTimeMeansMinimum` | server/controllers/quizController.js:56-72 | without a truthy `totalTime`, every request that passes the first four guards is accepted, with exactly the minimum time |
| `QuizController.SuppliedTimeAcceptedIff` | server/controllers/quizController.js:56-72 | a supplied time t is accepted iff min <= t <= 1800 and is then forwarded as t; below the minimum the too-low error is reported first |
| `QuizController.TopicOnlyCheckedForPresence` | server/controllers/quizController.js:12-17 | the verdict does not depend on which non-empty topic is sent: there is no length check |
| `QuizController.BlankTopicForwardedEmpty` | server/controllers/quizController.js:75-81 | an accepted topic of nothing but white space is forwarded as the empty string |
| `QuizController.BlankTopicExample` | server/controllers/quizController.js:12-81 | two spaces, easy, mcq, 5 questions, no time: accepted and forwarded as "" with 150 s |
| `QuizController.TimeAndCountScenarios` | server/controllers/quizController.js:37-65 | 100 s for five easy mcq questions is refused with "at least 3 minutes"; once presence, difficulty and type have passed, 21 questions are refused on the count |
| `QuizController.BodyOf` | server/controllers/quizController.js:7 | a forwarded call, resubmitted, is a body with each of its five fields present and unchanged |
| `QuizController.ResubmitAccepted` | server/controllers/quizController.js:12-81 | a well-formed call with a trimmed non-blank topic is accepted unchanged when resubmitted |
| `QuizController.RevalidationIdempotent` | server/controllers/quizController.js:12-81 | validating an accepted request's normalised form again gives the same call, except for a blank topic, which then gets the missing-fields error |
| `QuizController.ExplanationMessage` | server/controllers/quizController.js:104-107 | the 400 text of the explanation endpoint names each of question, correctAnswer and userAnswer |
| `QuizController.GenerateExplanation` | server/controllers/quizController.js:103-115 | an explanation request is rejected iff one of question, correctAnswer, userAnswer is falsy; otherwise the three trimmed strings are forwarded in order |
| `QuizConfigModal.TimePerQuestion` | client/src/components/home/QuizConfigModal.jsx:24-29 | the client's time per question is between 20 and 60 s and falls back to 45 s for a difficulty that matches no constant |
| `QuizConfigModal.SuggestedTime` | client/src/components/home/QuizConfigModal.jsx:23-33 | for n questions the suggestion lies between 20n and 60n seconds |
| `QuizConfigModal.InitialConfig` | client/src/components/home/QuizConfigModal.jsx:11-17 | the draft starts with an empty topic, MEDIUM, MCQ, DEFAULT_QUESTIONS and 600 s |
| `QuizConfigModal.Synced` | client/src/components/home/QuizConfigModal.jsx:37-40 | after the timer effect the time is at least the suggestion, never lower than before, one of the two, and nothing else changes |
| `QuizConfigModal.SyncIdempotent` | client/src/components/home/QuizConfigModal.jsx:37-40 | running the timer effect again changes nothing |
| `QuizConfigModal.SyncKeepsRaisedTime` | client/src/components/home/QuizConfigModal.jsx:39 | a time at or above the suggestion survives the effect unchanged |
| `QuizConfigModal.ResetConfig` | client/src/components/home/QuizConfigModal.jsx:111-121 | reset restores the defaults except the time, which is the suggestion of the pre-reset draft |
| `QuizConfigModal.ResetThenSync` | client/src/components/home/QuizConfigModal.jsx:111-121 | after reset and the effect, the time is the larger of the old and the new suggestion |
| `QuizConfigModal.ResetKeepsStaleSuggestion` | client/src/components/home/QuizConfigModal.jsx:112 | resetting a 20-question hard mcq draft keeps 1200 s, though the default draft suggests 450 s |
| `QuizConfigModal.TopicMatches` | client/src/components/home/QuizConfigModal.jsx:48 | a topic never matches a longer text, and always matches its own name typed in any letter case |
| `QuizConfigModal.Kept` | client/src/components/home/QuizConfigModal.jsx:47-49 | a single topic is kept exactly when it matches |
| `QuizConfigModal.FilterTopics` | client/src/components/home/QuizConfigModal.jsx:47-49 | the filtered list is never longer than the topic list |
| `QuizConfigModal.FilterMembership` | client/src/components/home/QuizConfigModal.jsx:47-49 | a topic is in the filtered list exactly when it is in the topic list and matches |
| `QuizConfigModal.FilterAllMatch` | client/src/components/home/QuizConfigModal.jsx:47-49 | every entry of the filtered list matches the text |
| `QuizConfigModal.FilterKeepsOrder` | client/src/components/home/QuizConfigModal.jsx:47-49 | filtering distributes over concatenation, so the original order is kept |
| `QuizConfigModal.FilterKeepsAllMatching` | client/src/components/home/QuizConfigModal.jsx:47-49 | a list whose every entry matches is returned unchanged |
| `QuizConfigModal.FilterIdempotent` | client/src/components/home/QuizConfigModal.jsx:47-49 | filtering twice by the same text is filtering once |
| `QuizConfigModal.SubmitChecks` | client/src/components/home/QuizConfigModal.jsx:78-97 | a draft passes iff its trimmed topic has at least 2 characters and min <= time <= 1800; a blank topic is refused first; what passes is the draft itself |
| `QuizConfigModal.SubmitFirstFailureReported` | client/src/components/home/QuizConfigModal.jsx:78-97 | the checks run in order: empty topic, short topic, time too low, time too high |
| `QuizConfigModal.BlankTopicRefused` | client/src/components/home/QuizConfigModal.jsx:78-81 | a topic of nothing but white space is refused as missing |
| `QuizConfigModal.SyncedNeverTooLow` | client/src/components/home/QuizConfigModal.jsx:37-92 | after the timer effect, submit never reports a time that is too low |
| `QuizConfigModal.SubmitMessage` | client/src/components/home/QuizConfigModal.jsx:79-95 | the toast texts agree with the checks: the missing text names the topic, the short text gives the 2-character minimum, the too-low text the rounded-up minutes, the too-high text 1800 s as 30 minutes |
| `QuizConfigModal.JsRemainder60` | client/src/components/home/QuizConfigModal.jsx:124-125 | for s >= 0, mins*60 + secs = s with 0 <= secs < 60; for s < 0 the JavaScript remainder is in (-60, 0] and differs from s by a multiple of 60 |
| `QuizConfigModal.FormatTime` | client/src/components/home/QuizConfigModal.jsx:123-127 | a non-negative time starts with its whole minutes and "m" and ends in "s" exactly when seconds are left over; a negative time s shows as "-" followed by the digits of -floor(s/60) and "m", with no seconds part |
| `QuizConfigModal.FormatTimeShape` | client/src/components/home/QuizConfigModal.jsx:123-127 | for s >= 0 the text is "Xm" when secs = 0 and "Xm Ys" otherwise, with X*60 + Y = s |
| `QuizConfigModal.FormatTimeRoundTrip` | client/src/components/home/QuizConfigModal.jsx:123-127 | formatting a non-negative time loses nothing: the text reads back as the same number of seconds |
| `QuizConfigModal.ConfigForm.constructor` | client/src/components/home/QuizConfigModal.jsx:11-20 | the initial state: the default draft, the full topic list, suggestions hidden |
| `QuizConfigModal.ConfigForm.SyncTotalTime` | client/src/components/home/QuizConfigModal.jsx:37-40 | the effect sets the draft to its synced form and touches no other state |
| `QuizConfigModal.ConfigForm.HandleTopicChange` | client/src/components/home/QuizConfigModal.jsx:43-56 | sets the topic; non-empty text filters the list and shows it, empty text restores the full list and hides it |
| `QuizConfigModal.ConfigForm.HandleTopicSelect` | client/src/components/home/QuizConfigModal.jsx:59-62 | sets only the topic and hides the suggestions |
| `QuizConfigModal.ConfigForm.SelectDifficulty` | client/src/components/home/QuizConfigModal.jsx:215 | changes only the difficulty |
| `QuizConfigModal.ConfigForm.SelectQuestionType` | client/src/components/home/QuizConfigModal.jsx:252 | changes only the question type |
| `QuizConfigModal.ConfigForm.SetNumberOfQuestions` | client/src/components/home/QuizConfigModal.jsx:289 | changes only the question count |
| `QuizConfigModal.ConfigForm.SetTotalTime` | client/src/components/home/QuizConfigModal.jsx:341 | changes only the total time |
| `QuizConfigModal.ConfigForm.UseSuggested` | client/src/components/home/QuizConfigModal.jsx:327 | sets the time to exactly the current suggestion and changes nothing else |
| `QuizConfigModal.ConfigForm.HandleReset` | client/src/components/home/QuizConfigModal.jsx:111-121 | the draft becomes the reset draft, suggestions are hidden, the filtered list is kept |
| `QuizConfigModal.ConfigForm.HandleSubmit` | client/src/components/home/QuizConfigModal.jsx:75-100 | returns the first failing check's error or the draft to send; the state is left unchanged |
| `ClientServerAgreement.RequestOf` | client/src/components/home/QuizConfigModal.jsx:100 | the body built from a draft carries each of the five draft fields, present and unchanged (that the quiz context sends exactly this body is assumed; see "Left out") |
| `ClientServerAgreement.TablesAgree` | client/src/components/home/QuizConfigModal.jsx:23-31 | with the usual constants, the client's suggestion equals the server's minimum for every difficulty, type and count, fallback included |
| `ClientServerAgreement.TablesDisagreeOnOtherConstants` | client/src/components/home/QuizConfigModal.jsx:25 | if EASY were spelled differently, the copies would disagree (45 s against 30 s) |
| `ClientServerAgreement.LimitsAndMessagesAgree` | client/src/components/home/QuizConfigModal.jsx:89-95 | both sides cap the time at 1800 s and word their time errors identically |
| `ClientServerAgreement.ClientAcceptedImpliesServerAccepts` | client/src/components/home/QuizConfigModal.jsx:78-100 | a draft the form accepts, with a known difficulty and type and 1..20 questions, is accepted by the server with the trimmed topic and the draft's own time |
| `ClientServerAgreement.ServerAcceptsShortTopic` | client/src/components/home/QuizConfigModal.jsx:83-86 | a topic that trims to one character is refused by the form but accepted by the server |
| `ClientServerAgreement.ServerAcceptsZeroTime` | server/controllers/quizController.js:56 | a zero time is refused by the form (with the too-low toast and the rounded-up suggestion when the topic has two or more characters), while the server accepts it with the minimum |
| `ClientServerAgreement.SyncedDraftAcceptedByBoth` | client/src/components/home/QuizConfigModal.jsx:37-100 | after the timer effect, a draft with a known difficulty and type, 1..20 questions, a topic of two or more characters and a time within 1800 s is accepted by both sides |

## Left out

- The external generator (`geminiService.generateQuiz`, `generateExplanation`) is not modelled. A `Success` result stands for "the generator is called with these arguments". Its failures, and the `next(error)` path, are left out.
- Express I/O is left out: `res.status(...).json(...)` and `console.log`. Every modelled error is a 400.
- Request bodies are typed. String fields are optional strings, and numbers are optional integers. A non-string topic makes `topic.trim()` throw; this is not modelled. `parseInt` of strings and fractional numbers is not modelled either.
- ResolveTotalTime: an integer time of 10^21 or more is kept as given, so the model answers too-high. In the code, `parseInt` first turns such a number into exponent form ("1e+21") and reads only its leading digit, so the source answers too-low there. The too-high clause of `FirstFailureReported` inherits this gap. Numbers are modelled as unbounded integers, and the exponent rendering of JavaScript numbers is not modelled.
- GenerateQuiz: the time guarantee (between the minimum and 1800 s) holds for integer `totalTime` values only. In the code a non-numeric string is truthy, `parseInt` makes it `NaN`, both time comparisons are false for `NaN`, and `NaN` reaches the generator; typed bodies leave this case out.
- RequestOf: that `QuizContext.generateQuiz` sends the draft to the server unchanged, as this body, is an assumption. The context's source is not part of this model, and `ClientAcceptedImpliesServerAccepts` and `SyncedDraftAcceptedByBoth` rest on it.
- `TimePerQuestion` (both sides) does not model keys inherited from `Object.prototype`, such as a difficulty of "constructor". A real object lookup returns a function there, and the product is `NaN`. The server's difficulty guard makes this unreachable. The client only sets difficulties from the label keys.
- `ToLower` lowers only ASCII letters. JavaScript's `toLowerCase` applies the full Unicode case mapping.
- Topic length counts Unicode characters. JavaScript counts UTF-16 code units.
- The React scheduling itself is not modelled. `SyncTotalTime` is the effect body; React runs it after mount and after every render in which difficulty, type or count changed. Each handler sees the state of its render.
- `handleTopicBlur` is not modelled: its 150 ms timer and DOM focus test are timing and DOM concerns. The `onFocus` toggle of the suggestion list is not modelled either.
- Toasts are modelled only as their texts. The async `generateQuiz` call of the quiz context, with its success and failure handling, is left out. The context's source is not part of this model.
- The slider bounds are not enforced: question count within MIN..MAX, time within the suggestion..1800, step 30. The setters accept any integer, as the handlers themselves do. The agreement lemmas state the count and value assumptions as preconditions instead.
- Display-only floating-point values are not modelled: the slider gradients and the seconds-per-question hint.
- `client/src/components/common/Modal.jsx` (presentation only) and `client/src/components/quiz/ProgressBar.jsx` (renders the given values and computes nothing) are not part of this model.
