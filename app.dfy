/**
  The application flow (elite-simulapro/App.tsx): ten screens, the quiz and
  study-plan data the screens share, and the handlers that move between
  them. Each generation request is asynchronous; here it is two steps, a
  start that enters a loading screen and a resolve that receives the
  outcome of the request.
*/
module App {
  import opened Types
  import opened LocalStorage
  import Statistics
  import StatisticsScreen
  import ResultsScreen

  datatype AppState =
    | Home
    | ConfiguringQuiz
    | LoadingQuiz
    | Quiz
    | Results
    | Error
    | ConfiguringStudyPlan
    | LoadingStudyPlan
    | StudyPlanResult
    | StatisticsView

  /** The three places the home screen links to. */
  datatype Destination = ToConfiguringQuiz | ToConfiguringStudyPlan | ToStatistics

  function Target(d: Destination): AppState
  {
    match d
    case ToConfiguringQuiz => ConfiguringQuiz
    case ToConfiguringStudyPlan => ConfiguringStudyPlan
    case ToStatistics => StatisticsView
  }

  /**
    How a generation request settles: it yields a value, or it rejects,
    with an Error whose message is `Some(m)` or with a value that is not an
    Error (None).
  */
  datatype Outcome<T> = Generated(value: T) | Failed(message: Option<string>)

  const UnknownError: string := "Ocorreu um erro desconhecido."
  const EmptyQuizError: string :=
    "A IA não conseguiu gerar o simulado. Tente novamente com um tema diferente."
  const EmptyPlanError: string :=
    "A IA não conseguiu gerar o plano de estudos. Tente novamente com parâmetros diferentes."

  /** The loading screens offer no action: nothing but the outcome of the request leaves them. */
  predicate Loading(s: AppState)
  {
    s == LoadingQuiz || s == LoadingStudyPlan
  }

  /**
    The message the error screen shows for a request: the rejection's own
    message, the fallback when the rejection carries none, and the screen's
    own message when the request yields nothing usable. None when the
    request yields something usable.
  */
  function QuizFailure(outcome: Outcome<seq<QuizQuestion>>): (msg: Option<string>)
    ensures msg.None? <==> outcome.Generated? && |outcome.value| > 0
    ensures outcome.Generated? && |outcome.value| == 0 ==> msg == Some(EmptyQuizError)
    ensures outcome.Failed? && outcome.message.Some? ==> msg == outcome.message
    ensures outcome.Failed? && outcome.message.None? ==> msg == Some(UnknownError)
  {
    match outcome
    case Generated(questions) => if |questions| > 0 then None else Some(EmptyQuizError)
    case Failed(message) => if message.Some? then message else Some(UnknownError)
  }

  function PlanFailure(outcome: Outcome<StudyPlan>): (msg: Option<string>)
    ensures msg.None? <==> outcome.Generated? && |outcome.value.weeklyPlan| > 0
    ensures outcome.Generated? && |outcome.value.weeklyPlan| == 0 ==> msg == Some(EmptyPlanError)
    ensures outcome.Failed? && outcome.message.Some? ==> msg == outcome.message
    ensures outcome.Failed? && outcome.message.None? ==> msg == Some(UnknownError)
  {
    match outcome
    case Generated(plan) => if |plan.weeklyPlan| > 0 then None else Some(EmptyPlanError)
    case Failed(message) => if message.Some? then message else Some(UnknownError)
  }

  /** The record of a finished quiz, as handleQuizComplete builds it. */
  function ResultOf(settings: QuizSettings, questions: seq<QuizQuestion>, answers: seq<UserAnswer>, now: int): (r: QuizResult)
    ensures r.subject == settings.subject && r.totalQuestions == |questions|
    ensures r.correctAnswers == |CorrectAnswers(answers)| && r.timestamp == now
  {
    QuizResult(settings.subject, |questions|, CountCorrect(answers), now)
  }

  /**
    A quiz completed with at most one answer per question, each for one of
    its questions, logs a result with questions and with no more correct
    answers than questions.
  */
  lemma ResultOfConsistent(settings: QuizSettings, questions: seq<QuizQuestion>, answers: seq<UserAnswer>, now: int)
    requires |questions| > 0 && DistinctIndices(answers) && IndicesBelow(answers, |questions|)
    ensures var r := ResultOf(settings, questions, answers, now);
            0 <= r.correctAnswers <= r.totalQuestions && r.totalQuestions > 0
  {
    ResultsScreen.ScoreCountsBounded(questions, answers);
  }

  /**
    Logging such a result keeps a consistent log consistent, so the overall
    accuracy the statistics screen shows stays between 0 and 100.
  */
  lemma LoggedResultKeepsAccuracyInRange(log: seq<QuizResult>, settings: QuizSettings, questions: seq<QuizQuestion>,
                                         answers: seq<UserAnswer>, now: int)
    requires StatisticsScreen.Consistent(log)
    requires |questions| > 0 && DistinctIndices(answers) && IndicesBelow(answers, |questions|)
    ensures StatisticsScreen.Consistent(log + [ResultOf(settings, questions, answers, now)])
    ensures 0.0 <= StatisticsScreen.OverallAccuracy(log + [ResultOf(settings, questions, answers, now)]) <= 100.0
  {
    var r := ResultOf(settings, questions, answers, now);
    ResultOfConsistent(settings, questions, answers, now);
    assert forall k :: 0 <= k < |log| ==> (log + [r])[k] == log[k];
    StatisticsScreen.OverallAccuracyInRange(log + [r]);
  }

  class App {
    var appState: AppState
    var quizSettings: Option<QuizSettings>
    var quizQuestions: seq<QuizQuestion>
    var userAnswers: seq<UserAnswer>
    var studyPlan: Option<StudyPlan>
    var error: Option<string>
    /** The browser store the statistics log is written to. */
    const storage: Storage

    /**
      What each screen can rely on: the home screen holds nothing; a quiz
      request is out only with its settings stored and no error; the quiz
      and results screens have settings and at least one question, and the
      quiz starts with no answers; a new study plan is configured with no
      plan held; the plan screen has a plan with at least one week; the error
      screen has a message.
    */
    ghost predicate Valid()
      reads this
    {
      && (appState == Home ==> quizSettings.None? && quizQuestions == [] && userAnswers == []
                               && studyPlan.None? && error.None?)
      && (appState == LoadingQuiz ==> quizSettings.Some? && error.None?)
      && (appState == LoadingStudyPlan ==> error.None?)
      && (appState == Quiz ==> quizSettings.Some? && |quizQuestions| > 0 && userAnswers == [] && error.None?)
      && (appState == Results ==> quizSettings.Some? && |quizQuestions| > 0)
      && (appState == ConfiguringStudyPlan ==> studyPlan.None?)
      && (appState == StudyPlanResult ==> studyPlan.Some? && |studyPlan.value.weeklyPlan| > 0)
      && (appState == Error ==> error.Some?)
    }

    /** The first render: the home screen, with nothing held. */
    constructor (storage: Storage)
      ensures Valid()
      ensures appState == Home && quizSettings.None? && quizQuestions == [] && userAnswers == []
      ensures studyPlan.None? && error.None? && this.storage == storage
    {
      appState := Home;
      quizSettings := None;
      quizQuestions := [];
      userAnswers := [];
      studyPlan := None;
      error := None;
      this.storage := storage;
    }

    /** The home screen's links: move to the chosen screen and nothing else. */
    method Navigate(destination: Destination)
      requires Valid() && appState == Home
      modifies this`appState
      ensures Valid()
      ensures appState == Target(destination)
    {
      appState := Target(destination);
    }

    /** handleStartQuiz up to its await: the loading screen, no error, and the settings stored. */
    method StartQuiz(settings: QuizSettings)
      requires Valid() && !Loading(appState)
      modifies this`appState, this`error, this`quizSettings
      ensures Valid()
      ensures appState == LoadingQuiz && error.None? && quizSettings == Some(settings)
    {
      appState := LoadingQuiz;
      error := None;
      quizSettings := Some(settings);
    }

    /**
      handleStartQuiz after its await: with at least one question the quiz
      starts on them with no answers; otherwise the error screen shows the
      message, and the questions and answers held before stay as they were.
    */
    method ResolveQuiz(outcome: Outcome<seq<QuizQuestion>>)
      requires Valid() && appState == LoadingQuiz
      modifies this`appState, this`error, this`quizQuestions, this`userAnswers
      ensures Valid()
      ensures QuizFailure(outcome).None?
              ==> appState == Quiz && quizQuestions == outcome.value && userAnswers == [] && error.None?
      ensures QuizFailure(outcome).Some?
              ==> appState == Error && error == QuizFailure(outcome)
                  && quizQuestions == old(quizQuestions) && userAnswers == old(userAnswers)
    {
      match outcome
      case Generated(questions) =>
        if |questions| > 0 {
          quizQuestions := questions;
          userAnswers := [];
          appState := Quiz;
        } else {
          error := Some(EmptyQuizError);
          appState := Error;
        }
      case Failed(message) =>
        error := Some(if message.Some? then message.value else UnknownError);
        appState := Error;
    }

    /** handleGenerateStudyPlan up to its await: the loading screen and no error. */
    method GenerateStudyPlan(settings: StudyPlanSettings)
      requires Valid() && !Loading(appState)
      modifies this`appState, this`error
      ensures Valid()
      ensures appState == LoadingStudyPlan && error.None?
    {
      appState := LoadingStudyPlan;
      error := None;
    }

    /**
      handleGenerateStudyPlan after its await: a plan with at least one week
      is shown; otherwise the error screen shows the message and the plan
      held before stays.
    */
    method ResolveStudyPlan(outcome: Outcome<StudyPlan>)
      requires Valid() && appState == LoadingStudyPlan
      modifies this`appState, this`error, this`studyPlan
      ensures Valid()
      ensures PlanFailure(outcome).None?
              ==> appState == StudyPlanResult && studyPlan == Some(outcome.value) && error.None?
      ensures PlanFailure(outcome).Some?
              ==> appState == Error && error == PlanFailure(outcome) && studyPlan == old(studyPlan)
    {
      match outcome
      case Generated(plan) =>
        if |plan.weeklyPlan| > 0 {
          studyPlan := Some(plan);
          appState := StudyPlanResult;
        } else {
          error := Some(EmptyPlanError);
          appState := Error;
        }
      case Failed(message) =>
        error := Some(if message.Some? then message.value else UnknownError);
        appState := Error;
    }

    /**
      handleQuizComplete, called by the quiz screen with its answers and the
      clock's reading: exactly one result is logged (the subject, the number
      of questions and the number of answers marked correct), the answers are
      kept for the results screen, and the results screen is shown.
    */
    method CompleteQuiz(answers: seq<UserAnswer>, now: int)
      requires Valid() && appState == Quiz
      modifies this`userAnswers, this`appState, storage
      ensures Valid()
      ensures storage.items
              == Statistics.Saved(old(storage.items), ResultOf(quizSettings.value, quizQuestions, answers, now))
      ensures Statistics.StoredResults(storage.items)
              == old(Statistics.StoredResults(storage.items)) + [ResultOf(quizSettings.value, quizQuestions, answers, now)]
      ensures userAnswers == answers && appState == Results
    {
      if quizSettings.Some? && |quizQuestions| > 0 {
        var correctAnswers := |CorrectAnswers(answers)|;
        Statistics.SaveQuizResult(storage,
          QuizResult(quizSettings.value.subject, |quizQuestions|, correctAnswers, now));
      }
      userAnswers := answers;
      appState := Results;
    }

    /** handleRestartQuiz: a new request with the stored settings, or nothing when none are stored. */
    method RestartQuiz()
      requires Valid() && !Loading(appState)
      modifies this`appState, this`error, this`quizSettings
      ensures Valid()
      ensures old(quizSettings).Some?
              ==> appState == LoadingQuiz && error.None? && quizSettings == old(quizSettings)
      ensures old(quizSettings).None?
              ==> appState == old(appState) && error == old(error) && quizSettings == old(quizSettings)
    {
      if quizSettings.Some? {
        StartQuiz(quizSettings.value);
      }
    }

    /** handleGoHome: back to the home screen with everything cleared; nothing is logged. */
    method GoHome()
      requires Valid() && !Loading(appState)
      modifies this`appState, this`quizSettings, this`quizQuestions, this`userAnswers, this`studyPlan, this`error
      ensures Valid()
      ensures appState == Home && quizSettings.None? && quizQuestions == [] && userAnswers == []
      ensures studyPlan.None? && error.None?
      ensures unchanged(storage)
    {
      quizSettings := None;
      quizQuestions := [];
      userAnswers := [];
      studyPlan := None;
      error := None;
      appState := Home;
    }

    /** handleNewStudyPlan: drop the plan and configure another. */
    method NewStudyPlan()
      requires Valid() && !Loading(appState)
      modifies this`studyPlan, this`appState
      ensures Valid()
      ensures studyPlan.None? && appState == ConfiguringStudyPlan
    {
      studyPlan := None;
      appState := ConfiguringStudyPlan;
    }

    /** The plan screen's link to the quiz form; the plan is kept. */
    method GoToQuiz()
      requires Valid() && !Loading(appState)
      modifies this`appState
      ensures Valid()
      ensures appState == ConfiguringQuiz
    {
      appState := ConfiguringQuiz;
    }
  }
}
