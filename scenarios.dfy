/**
  Whole runs through the screens: a two-question quiz answered once right
  and once wrong, a quiz request that yields no questions, and a study plan
  whose subject lines are all blank.
*/
module Scenarios {
  import opened Types
  import opened LocalStorage
  import Statistics
  import QuizScreen
  import ResultsScreen
  import App
  import StudyPlanConfigurationScreen

  /**
    Two questions, the first with option 1 correct and the second with
    option 0 correct; option 1 is picked on both. The answers handed over
    are [(0, 1, right), (1, 1, wrong)]: one of two is right, and the score
    is 50 %.
  */
  method TwoQuestionQuiz(q0: QuizQuestion, q1: QuizQuestion)
    returns (answers: seq<UserAnswer>, score: real)
    requires q0.correctAnswerIndex == 1 && q1.correctAnswerIndex == 0
    requires |q0.options| >= 2 && |q1.options| >= 2
    ensures answers == [UserAnswer(0, 1, true), UserAnswer(1, 1, false)]
    ensures score == 50.0
  {
    var session := new QuizScreen.QuizSession([q0, q1]);
    session.SelectAnswer(1);
    assert session.userAnswers == [UserAnswer(0, 1, true)];
    assert FindAnswer(session.userAnswers, 0).Some?;
    var done := session.NextQuestion();
    assert session.currentQuestionIndex == 1 && session.questions[1] == q1;
    assert FindAnswer(session.userAnswers, 1).None?;
    session.SelectAnswer(1);
    assert session.userAnswers == [UserAnswer(0, 1, true), UserAnswer(1, 1, false)];
    assert FindAnswer(session.userAnswers, 1).Some?;
    done := session.NextQuestion();
    answers := done.value;
    ResultsScreen.HalfRightScoresFifty();
    score := ResultsScreen.ScorePercentage(CountCorrect(answers), 2);
  }

  /**
    The same quiz run through the application from an empty store, with the
    answers the quiz session hands over: once it is completed, the log holds
    exactly its result (two questions, one right), read back unchanged.
  */
  method TwoQuestionQuizIsLogged(q0: QuizQuestion, q1: QuizQuestion, settings: QuizSettings, now: int)
    returns (logged: seq<QuizResult>)
    requires q0.correctAnswerIndex == 1 && q1.correctAnswerIndex == 0
    requires |q0.options| >= 2 && |q1.options| >= 2
    ensures logged == [QuizResult(settings.subject, 2, 1, now)]
  {
    var answers, _ := TwoQuestionQuiz(q0, q1);
    ResultsScreen.HalfRightScoresFifty();
    var storage := new Storage(map[]);
    var app := new App.App(storage);
    app.Navigate(App.ToConfiguringQuiz);
    app.StartQuiz(settings);
    app.ResolveQuiz(App.Generated([q0, q1]));
    app.CompleteQuiz(answers, now);
    logged := Statistics.GetQuizResults(storage);
  }

  /** A quiz request that yields an empty list ends on the error screen, not the quiz. */
  method EmptyQuizIsAnError(settings: QuizSettings) returns (state: App.AppState, message: Option<string>)
    ensures state == App.Error && message == Some(App.EmptyQuizError)
  {
    var storage := new Storage(map[]);
    var app := new App.App(storage);
    app.Navigate(App.ToConfiguringQuiz);
    app.StartQuiz(settings);
    app.ResolveQuiz(App.Generated([]));
    state, message := app.appState, app.error;
  }

  /** Subject lines that are all blank are refused before any request. */
  method BlankSubjectsAreRefused() returns (request: Option<StudyPlanSettings>)
    ensures request.None?
  {
    var form := new StudyPlanConfigurationScreen.StudyPlanForm();
    form.SetSubjects("  \n");
    StudyPlanConfigurationScreen.BlankLinesLeaveNoSubject();
    request := form.Submit();
  }
}
