# Elite SimulaPro front end, modelled in Dafny

Elite SimulaPro is a React front end for practising public-exam questions.
It asks a generation service for a quiz or a study plan, runs the quiz one
question at a time, scores it, and keeps a log of finished quizzes in the
browser's key-value store, from which a statistics screen is computed. A
dismissible banner remembers its dismissal in the same store.

The model has one module for each piece of logic:

- `Types` (`types.dfy`) holds the entities of `types.ts` as datatypes. It
  also holds the two lookups over an answer list that several screens
  share: the first answer recorded for a question, and the answers marked
  correct.
- `LocalStorage` (`local_storage.dfy`) is the browser store. It is a class
  whose `items` map is changed by `SetItem` and `RemoveItem`. A stored
  value is either a serialised result list or any other text; text never
  holds a serialised result list, so no stored string is described twice.
- `Statistics` (`statistics.dfy`) covers `utils/statistics.ts`: reading,
  appending to and clearing the result log under its one key. Each
  operation is a module-level method that takes the store as a parameter,
  and each is specified by a function of the store's content.
- `StatisticsScreen` (`statistics_screen.dfy`) is the aggregate over the
  log. It has the totals, the overall accuracy, the per-subject grouping
  (the loop over a map, as a method), the worst-first ordering and the
  confirmed clearing.
- `ResultsScreen` (`results_screen.dfy`) covers the correct and incorrect
  counts, the score percentage and its colour band, and the per-question
  review line.
- `QuizScreen` (`quiz_screen.dfy`) is the quiz session. It is a class with
  the cursor and the answer list, plus an invariant that every handler
  keeps.
- `StudyPlanConfigurationScreen` (`study_plan_configuration_screen.dfy`)
  covers the study-plan form. It splits the subject text on newlines,
  drops blank lines, refuses an empty list and holds the form defaults.
- `Banner` (`banner.dfy`) is the dismissal flag.
- `App` (`app.dfy`) is the screen state machine and its handlers. Each
  asynchronous generation request is split into a start step and a resolve
  step, and the resolve step receives the outcome as an input.
- `Scenarios` (`scenarios.dfy`) holds whole runs through the screens.

Percentages are `real`, so no floating-point rounding is modelled. Integers
are unbounded, because the JavaScript numbers involved are counts far below
2^53. The clock (`Date.now()`) and the answers to `window.confirm` are
parameters.

## Model

| member | source | states |
|---|---|---|
| Types.FindAnswer | components/QuizScreen.tsx:23 | None exactly when no answer has the question index; otherwise an answer for that index with no earlier answer for it |
| Types.FindAnswerAppend | components/QuizScreen.tsx:92 | appending an answer keeps the answer already found for a question, and finds the appended one only for a question that had none |
| Types.CorrectAnswers | components/ResultsScreen.tsx:14 | keeps exactly the answers marked correct, and never more answers than it is given |
| Types.CountCorrect | components/ResultsScreen.tsx:14 | the correct count is at most the number of answers, and zero exactly when no answer is marked correct |
| Types.CountCorrectConcat | elite-simulapro/App.tsx:74 | the correct count of a concatenation is the sum of the parts' counts; one answer counts 1 exactly when it is marked correct |
| Types.AnsweredIndexesCount | components/QuizScreen.tsx:23-24 | with one answer per question, there are as many answered questions as answers |
| Types.AnswerCountBound | components/QuizScreen.tsx:82-92 | with one answer per question among n questions there are at most n answers, and exactly n when every question is answered |
| LocalStorage.Storage.GetItem | utils/statistics.ts:7 | a value comes back exactly when the key is present, and it is the stored value |
| LocalStorage.Storage.SetItem | utils/statistics.ts:18 | the key now maps to the value and every other key is as before |
| LocalStorage.Storage.RemoveItem | utils/statistics.ts:22 | the key is gone and every other key is as before |
| Statistics.GetQuizResults | utils/statistics.ts:5-13 | an absent key, the empty string and unparsable text all read as the empty log; a stored list reads as itself |
| Statistics.Parse | utils/statistics.ts:8 | a stored result list parses as itself, and any other stored text fails to parse (see below for text that parses to something else) |
| Statistics.StoredResults | utils/statistics.ts:5-13 | the log read from a store content: the stored list when the slot holds one, the empty log when the key is absent or holds text |
| Statistics.SaveQuizResult | utils/statistics.ts:15-19 | the store holds the log read so far plus the result, and reading it back gives the old log followed by the result |
| Statistics.ClearQuizResults | utils/statistics.ts:21-23 | the key is removed and the log reads as empty |
| Statistics.Saved | utils/statistics.ts:15-19 | after a save the key holds a serialised list, and every other key is present and valued exactly as before |
| Statistics.Cleared | utils/statistics.ts:21-23 | after clearing the key is absent, and every other key is present and valued exactly as before |
| Statistics.SaveAppends | utils/statistics.ts:15-18 | saving grows the log by one, puts the result last, keeps the earlier entries, and leaves every other key alone |
| Statistics.SaveTwiceLogsTwice | utils/statistics.ts:17 | saving the same result twice logs it twice |
| Statistics.SaveOverCorrupt | utils/statistics.ts:9-18 | a corrupt log reads as empty, and the next save replaces it with the one result |
| Statistics.ClearThenRead | utils/statistics.ts:21-23 | after clearing, the log reads as empty whatever was stored, and no other key changes |
| StatisticsScreen.Subjects | components/StatisticsScreen.tsx:50-56 | the subjects of the log without repetition; a string is listed exactly when some result has it as subject |
| StatisticsScreen.Sum | components/StatisticsScreen.tsx:46-47 | a sum over results none of whose counts is negative is not negative |
| StatisticsScreen.SubjectSumWithinSum | components/StatisticsScreen.tsx:50-56 | with no negative counts, one subject's running total lies between 0 and the total over all results |
| StatisticsScreen.SubjectsAtMostResults | components/StatisticsScreen.tsx:50-56 | the grouping map gets at most one key per result |
| StatisticsScreen.AccuracyOf | components/StatisticsScreen.tsx:63 | undefined exactly when the total is zero; otherwise accuracy times total is 100 times correct |
| StatisticsScreen.OverallAccuracy | components/StatisticsScreen.tsx:48 | 0 when no questions were logged; otherwise accuracy times the question total is 100 times the correct total |
| StatisticsScreen.SubjectEntry | components/StatisticsScreen.tsx:60-64 | the entry names its subject; its accuracy is undefined exactly when its question total is zero, and otherwise accuracy times that total is 100 times its correct count |
| StatisticsScreen.EntriesOf | components/StatisticsScreen.tsx:58-65 | one entry per subject, in order, each holding that subject's sums and accuracy (every subject, "__proto__" included, as corrected under Findings) |
| StatisticsScreen.StatsOf | components/StatisticsScreen.tsx:45-65 | the quiz count is the number of results; at most one subject entry per result, and no subject listed twice |
| StatisticsScreen.GroupBySubject | components/StatisticsScreen.tsx:50-56 | the loop's map has exactly the log's subjects as keys in first-seen order, and each holds the sums over that subject's results |
| StatisticsScreen.ComputeStats | components/StatisticsScreen.tsx:40-68 | no statistics exactly for the empty log; otherwise the count, the sums, the overall accuracy and one entry per subject (corrected: "__proto__" included, see Findings) |
| StatisticsScreen.EntrySumIsGroupSum | components/StatisticsScreen.tsx:58-65 | summing the entries' counts is summing the subject sums |
| StatisticsScreen.AbsentSubjectSumsToZero | components/StatisticsScreen.tsx:52 | a subject that no result has sums to zero, so a new map entry starts from zero |
| StatisticsScreen.GroupSumDropLast | components/StatisticsScreen.tsx:51-55 | the last result adds its count to exactly one listed subject's sum |
| StatisticsScreen.GroupSumIsSum | components/StatisticsScreen.tsx:46-56 | the subject sums over all subjects add up to the overall sum |
| StatisticsScreen.SubjectTotalsAddUp | components/StatisticsScreen.tsx:45-65 | the per-subject question totals add up to totalQuestions, and the per-subject correct counts to totalCorrect |
| StatisticsScreen.RecordKeys | components/StatisticsScreen.tsx:58-60 | the keys a plain object lists after the assignments: every assigned subject except "__proto__", and no more keys than subjects |
| StatisticsScreen.ListedEntries | components/StatisticsScreen.tsx:103 | every listed entry is the entry of a subject of the log other than "__proto__", and every such subject is listed with its entry |
| StatisticsScreen.EntriesOfRecordKeys | components/StatisticsScreen.tsx:58-60 | the entries of the keys the object keeps are the entries of all subjects with the one for "__proto__" taken out, in order |
| StatisticsScreen.ListedEntriesAreStatsWithoutProto | components/StatisticsScreen.tsx:103 | the screen lists exactly the intended per-subject entries with the "__proto__" entry taken out |
| StatisticsScreen.ProtoSubjectIsDropped | components/StatisticsScreen.tsx:58-60 | one quiz of 5 questions on the subject "__proto__" lists no subject, so the listed question totals add up to 0, not 5 |
| StatisticsScreen.ListedEntriesWithoutProto | components/StatisticsScreen.tsx:58-60 | for a log without a "__proto__" subject the listed entries are the intended ones, and their totals add up to the overall totals |
| StatisticsScreen.SumsOrdered | components/StatisticsScreen.tsx:46-47 | in a consistent log the correct total lies between 0 and the question total |
| StatisticsScreen.OverallAccuracyInRange | components/StatisticsScreen.tsx:48 | in a consistent log the overall accuracy lies in [0, 100] |
| StatisticsScreen.PositiveTotalsDefineAccuracy | components/StatisticsScreen.tsx:63 | when every logged quiz had questions, every subject's accuracy is defined |
| StatisticsScreen.PresentSubjectSumPositive | components/StatisticsScreen.tsx:53 | a subject that occurs in a log of quizzes with questions has a positive question total |
| StatisticsScreen.Insert | components/StatisticsScreen.tsx:103 | inserting into an ascending list gives an ascending list with one more copy of the entry |
| StatisticsScreen.SortByAccuracy | components/StatisticsScreen.tsx:103 | the entries in non-decreasing accuracy, as a permutation of the input |
| StatisticsScreen.Screen.constructor | components/StatisticsScreen.tsx:27 | the screen starts with no results |
| StatisticsScreen.Screen.Mount | components/StatisticsScreen.tsx:29-31 | the screen holds the log as read from the store |
| StatisticsScreen.Screen.ClearHistory | components/StatisticsScreen.tsx:33-38 | confirmed: the results and the stored log are emptied; declined: nothing changes |
| ResultsScreen.ScorePercentage | components/ResultsScreen.tsx:15 | the score times the number of questions is 100 times the correct count |
| ResultsScreen.IncorrectCount | components/ResultsScreen.tsx:41 | the incorrect count is at most the number of questions, and not negative while there are no more answers than questions |
| ResultsScreen.GetScoreColor | components/ResultsScreen.tsx:17-21 | green from 70 %, yellow from 50 % below 70 %, red below 50 %, stated on the counts, so the bands are disjoint and cover every score |
| ResultsScreen.PercentageThreshold | components/ResultsScreen.tsx:18-19 | a score reaches a threshold exactly when 100 times correct reaches threshold times total |
| ResultsScreen.ScoreCountsBounded | components/ResultsScreen.tsx:37-41 | with one answer per question, the correct and incorrect counts are non-negative and add up to the number of questions |
| ResultsScreen.Letter | components/ResultsScreen.tsx:68 | the character whose code is 65 plus the index |
| ResultsScreen.ReviewOf | components/ResultsScreen.tsx:50-68 | an unanswered question shows "Não respondida", the letter '@' and the incorrect mark; an answered one shows its answer's mark, option text and letter |
| ResultsScreen.ReviewMarksMatchLetters | components/ResultsScreen.tsx:63-71 | for graded answers, a question is marked correct exactly when it was answered with the letter of the correct option |
| ResultsScreen.LettersOfFiveOptions | components/ResultsScreen.tsx:68 | indexes 0 to 4 are lettered A to E, and -1 is '@' |
| ResultsScreen.HalfRightScoresFifty | components/ResultsScreen.tsx:14-21 | one right answer of two scores 50 %, in the yellow band |
| QuizScreen.HighlightingMatchesAnswer | components/QuizScreen.tsx:109-120 | unanswered: every option is neutral; answered: right exactly for the correct option, wrong exactly for a wrong pick, dimmed for every other option |
| QuizScreen.ButtonStyle | components/QuizScreen.tsx:109-120 | neutral exactly when the question has no answer; right only for the correct option; wrong only for the picked option when it is not the correct one |
| QuizScreen.QuizSession.constructor | components/QuizScreen.tsx:15-16 | a session starts on the first question with no answers, and its invariant holds |
| QuizScreen.QuizSession.CurrentAnswerRecord | components/QuizScreen.tsx:23-25 | the answer found is one of the answers, is for the current question, and is graded against it |
| QuizScreen.QuizSession.ButtonClass | components/QuizScreen.tsx:109-120 | on the session's current question: every option neutral until it is answered; then right exactly for the correct option, wrong exactly for the picked option of an incorrect answer |
| QuizScreen.QuizSession.SelectAnswer | components/QuizScreen.tsx:82-93 | an answered question stays as it is; otherwise exactly one graded answer for the current question is appended; the invariant is kept |
| QuizScreen.QuizSession.NextQuestion | components/QuizScreen.tsx:95-101 | before the last question the cursor moves on; on the last it stays and hands over the answers, one for every question; the answers never change |
| QuizScreen.QuizSession.PrevQuestion | components/QuizScreen.tsx:103-107 | the cursor steps back unless it is on the first question; the answers never change |
| StudyPlanConfigurationScreen.Split | components/StudyPlanConfigurationScreen.tsx:19 | at least one piece, and no piece holds a newline |
| StudyPlanConfigurationScreen.JoinSplit | components/StudyPlanConfigurationScreen.tsx:19 | joining the pieces with newlines gives back the text |
| StudyPlanConfigurationScreen.SplitJoin | components/StudyPlanConfigurationScreen.tsx:19 | splitting newline-free lines joined with newlines gives back the lines |
| StudyPlanConfigurationScreen.TrimStart | components/StudyPlanConfigurationScreen.tsx:19 | a suffix of the text; everything dropped is white space, and what is left does not start with white space |
| StudyPlanConfigurationScreen.TrimEnd | components/StudyPlanConfigurationScreen.tsx:19 | a prefix of the text; everything dropped is white space, and what is left does not end with white space |
| StudyPlanConfigurationScreen.Trim | components/StudyPlanConfigurationScreen.tsx:19 | no longer than the line, and a non-empty result neither starts nor ends with white space |
| StudyPlanConfigurationScreen.TrimEmptyIffBlank | components/StudyPlanConfigurationScreen.tsx:19 | a line trims to the empty string exactly when it is all white space |
| StudyPlanConfigurationScreen.KeepNonBlank | components/StudyPlanConfigurationScreen.tsx:19 | a line is kept exactly when it is one of the lines and does not trim to empty |
| StudyPlanConfigurationScreen.KeepNonBlankConcat | components/StudyPlanConfigurationScreen.tsx:19 | the filter keeps order: filtering a concatenation concatenates the filtered parts |
| StudyPlanConfigurationScreen.SubjectLines | components/StudyPlanConfigurationScreen.tsx:19 | every subject is one of the text's lines, holds no newline and does not trim to empty |
| StudyPlanConfigurationScreen.KeepNonBlankKeepsAll | components/StudyPlanConfigurationScreen.tsx:19 | lines none of which is blank all survive, in order |
| StudyPlanConfigurationScreen.SubjectLinesAreNonBlankLines | components/StudyPlanConfigurationScreen.tsx:19 | each subject is a whole, untrimmed line without newline that is not all white space, and every such line is a subject |
| StudyPlanConfigurationScreen.SubjectLinesOfJoin | components/StudyPlanConfigurationScreen.tsx:19 | subjects typed one per line, none blank, come back exactly as typed |
| StudyPlanConfigurationScreen.DefaultSubjectsAreFour | components/StudyPlanConfigurationScreen.tsx:13 | the default subject text yields the four default subjects |
| StudyPlanConfigurationScreen.BlankLinesLeaveNoSubject | components/StudyPlanConfigurationScreen.tsx:19-20 | a text of two blank lines yields no subject |
| StudyPlanConfigurationScreen.StudyPlanForm.constructor | components/StudyPlanConfigurationScreen.tsx:12-15 | the form starts with the default goal and subjects, 15 hours and 8 weeks, one of the offered durations |
| StudyPlanConfigurationScreen.StudyPlanForm.SetGoal | components/StudyPlanConfigurationScreen.tsx:40 | the goal becomes the typed text |
| StudyPlanConfigurationScreen.StudyPlanForm.SetSubjects | components/StudyPlanConfigurationScreen.tsx:46 | the subject text becomes the typed text |
| StudyPlanConfigurationScreen.StudyPlanForm.SetHoursPerWeek | components/StudyPlanConfigurationScreen.tsx:53 | the hours become the entered number (whole hours only, see below) |
| StudyPlanConfigurationScreen.StudyPlanForm.SetDurationInWeeks | components/StudyPlanConfigurationScreen.tsx:59-63 | the duration becomes the picked one of 4, 8, 12 and 16 weeks |
| StudyPlanConfigurationScreen.StudyPlanForm.Submit | components/StudyPlanConfigurationScreen.tsx:17-25 | refused exactly when no subject line survives; otherwise the goal, the kept lines, the hours and the duration, all unchanged |
| Banner.Dismissed | components/Banner.tsx:18 | the flag is "true" and every other key is as before |
| Banner.NotDismissed | components/Banner.tsx:11-12 | a store without the flag shows the banner, and the flag "true" that a dismissal writes hides it |
| Banner.DismissIsPermanent | components/Banner.tsx:11-18 | after a dismissal no later mount finds the flag missing |
| Banner.StatisticsLeaveBannerAlone | components/Banner.tsx:5-13 | saving or clearing the quiz log never changes whether the banner counts as dismissed |
| Banner.DismissLeavesStatisticsAlone | components/Banner.tsx:17-19 | dismissing the banner never changes the quiz log |
| Banner.Banner.constructor | components/Banner.tsx:8 | the banner starts hidden |
| Banner.Banner.Mount | components/Banner.tsx:10-15 | shown when the flag is absent or empty; otherwise left as it was |
| Banner.Banner.Dismiss | components/Banner.tsx:17-20 | the flag is stored as "true" and the banner is hidden |
| App.QuizFailure | elite-simulapro/App.tsx:36-50 | no message exactly when at least one question came back; the empty-quiz message for an empty list; otherwise the rejection's message or the fallback |
| App.PlanFailure | elite-simulapro/App.tsx:56-69 | no message exactly when a plan with at least one week came back; the empty-plan message for an empty plan; otherwise the rejection's message or the fallback |
| App.ResultOf | elite-simulapro/App.tsx:74-80 | the result records the subject, the number of questions, the number of answers marked correct and the time |
| App.ResultOfConsistent | elite-simulapro/App.tsx:73-80 | a quiz completed with at most one answer per question, each for one of its questions, logs a result with at least one question and between 0 and that many correct answers |
| App.LoggedResultKeepsAccuracyInRange | elite-simulapro/App.tsx:73-80 | logging such a result keeps a consistent log consistent, and its overall accuracy stays between 0 and 100 |
| App.App.constructor | elite-simulapro/App.tsx:19-30 | the home screen with no settings, questions, answers, plan or error |
| App.App.Navigate | elite-simulapro/App.tsx:109 | from home, move to one of the three linked screens and change nothing else |
| App.App.StartQuiz | elite-simulapro/App.tsx:32-35 | the quiz loading screen with no error and the settings stored |
| App.App.ResolveQuiz | elite-simulapro/App.tsx:36-50 | at least one question: the quiz on them with no answers; otherwise the error screen with the message, questions and answers kept |
| App.App.GenerateStudyPlan | elite-simulapro/App.tsx:53-55 | the plan loading screen with no error |
| App.App.ResolveStudyPlan | elite-simulapro/App.tsx:56-69 | a plan with at least one week is shown; otherwise the error screen with the message, the old plan kept |
| App.App.CompleteQuiz | elite-simulapro/App.tsx:72-84 | exactly one result is appended to the log, the answers are kept and the results screen is shown |
| App.App.RestartQuiz | elite-simulapro/App.tsx:86-90 | with settings stored, a new request with the same settings; without, nothing changes |
| App.App.GoHome | elite-simulapro/App.tsx:92-99 | home with everything cleared, and the store untouched |
| App.App.NewStudyPlan | elite-simulapro/App.tsx:101-104 | the plan is dropped and the plan form is shown |
| App.App.GoToQuiz | elite-simulapro/App.tsx:142 | the quiz form is shown |
| Scenarios.TwoQuestionQuiz | components/QuizScreen.tsx:82-101 | picking option 1 on two questions whose correct options are 1 and 0 hands over [(0, 1, right), (1, 1, wrong)] and scores 50 % |
| Scenarios.TwoQuestionQuizIsLogged | elite-simulapro/App.tsx:72-84 | the answers that quiz session hands over, completed through the application from an empty store, leave a log of exactly its result: two questions, one right |
| Scenarios.EmptyQuizIsAnError | elite-simulapro/App.tsx:38-48 | a request that yields no questions ends on the error screen with the empty-quiz message |
| Scenarios.BlankSubjectsAreRefused | components/StudyPlanConfigurationScreen.tsx:19-23 | a subject text of blank lines is refused before any request |

## Left out

- The generation service (`services/geminiService.ts`) is not part of this model. A request's outcome is an input to `App.App.ResolveQuiz` and `App.App.ResolveStudyPlan`: a value, or a rejection with or without a message. The service itself turns every failure into one fixed message, so in practice the message is that text.
- Text-to-speech in the quiz screen (audio decoding and playback) is not modelled. It is asynchronous browser audio with floating-point samples.
- The service worker (`sw.js`), the home screen's install prompt, the quiz and plan forms' widgets and the plan view are not modelled. They are browser plumbing and views.
- HTML form validation is not modelled: required fields and the `min` and `max` of number inputs. The text fields and the duration picker take whatever value the setters receive.
- StudyPlanConfigurationScreen.StudyPlanForm.SetHoursPerWeek: the hours are a whole number. The source stores `Number` of the input's text (StudyPlanConfigurationScreen.tsx:53), which can be a fraction such as 7.5; fractional hours are not modelled. An emptied field gives 0 there, which the model does cover.
- Statistics.Parse: stored text that parses to something other than a result list is not modelled, for example the string "null". Such text is treated as unparsable and reads as the empty log, whereas the source would return that value.
- StatisticsScreen.GroupBySubject: the subject order is first-seen order, the key order of the JavaScript Map. The `Object.entries` call on the record that follows puts integer-like subject names first; that reordering is not modelled.
- StatisticsScreen.AccuracyOf: a subject whose questions total zero gives NaN or Infinity in the source. Here it gives `Undefined`.
- StatisticsScreen.SortByAccuracy: it requires every accuracy to be defined, so the NaN ordering of the JavaScript comparator is not modelled. Stability of the sort is not proved; only the order and the permutation are.
- StatisticsScreen.ComputeStats: the accumulator objects the grouping loop updates in place are modelled as values in a map.
- StatisticsScreen.ComputeStats: it, like `StatisticsScreen.StatsOf` and `StatisticsScreen.SubjectTotalsAddUp`, follows the corrected behaviour of the finding below and lists a subject named "__proto__". The source drops that subject from the per-subject table; that listing is `StatisticsScreen.ListedEntries`, and the totals add up there only for logs without that subject.
- StatisticsScreen.EntriesOf: the entry for a subject named "__proto__" is one the source never shows (see Findings).
- LocalStorage.Storage.SetItem: the store never fails. In a browser `setItem` can throw a quota error, and `getItem` a security error. Those exceptions are not modelled, nor the handlers they abort.
- App.App.CompleteQuiz: a failing write in `saveQuizResult` (utils/statistics.ts:18) would throw out of handleQuizComplete at App.tsx:75, before the answers are kept and the results screen is shown (App.tsx:82-83). The model always completes the transition.
- Banner.Banner.Dismiss: a failing write (Banner.tsx:18) would throw before the banner is hidden. The model always hides it.
- Banner.Banner.Mount: a failing read (Banner.tsx:11) is not caught there, unlike in `getQuizResults` (utils/statistics.ts:9-11). The model always reads.
- ResultsScreen.ReviewOf: it requires the answer's option index to be one of the question's first 26 options. The model therefore does not cover the letters after 'Z' or an answer index outside the options, where the source shows `undefined`.
- ResultsScreen.ScorePercentage: it requires at least one question. The results screen is only reached with at least one question, so the source's division by zero is unreachable.
- QuizScreen.QuizSession.NextQuestion: it requires the current question to be answered, because the Next button is only rendered then. Calling the handler on an unanswered last question is not modelled.
- App.App.GoHome: it, like every handler a button calls, requires a screen other than the two loading screens (the resolve steps require a loading screen instead, Navigate the home screen and CompleteQuiz the quiz screen). Those screens render no button, so a request is never overtaken by another action, and the race of a request resolving after the user has left is not modelled.
- App.App.StartQuiz: a second start while a request is out is excluded for the same reason. React batching of the state updates is not modelled; the updates of each handler are applied in order.
- The `window.confirm` answer in the statistics screen and the `alert` in the plan form are modelled as the boolean `confirmed` and as the `None` result of `Submit`. The clock is the `now` parameter of `App.App.CompleteQuiz`.
- Exact floating-point percentages and `toFixed` formatting are not modelled.

## Findings

| source | as written | input that shows it | evidently intended | confidence | as-written member | corrected member |
|---|---|---|---|---|---|---|
| components/StatisticsScreen.tsx:58-60 | each subject's entry is assigned into a plain object `{}` and listed with `Object.entries`; for the key "__proto__" the assignment replaces the prototype and adds no entry | one logged quiz with subject "__proto__", 5 questions, 3 correct: no subject is listed, while totalQuestions is 5 | every subject of the log has its entry, and the entries' totals add up to the overall totals | not executed | StatisticsScreen.ProtoSubjectIsDropped | StatisticsScreen.SubjectTotalsAddUp |
