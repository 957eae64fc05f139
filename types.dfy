/**
  The entities of the quiz and study-plan front end (types.ts), and the two
  lookups over an answer list that both the quiz screen and the results
  screen perform: the first answer recorded for a question, and the answers
  marked correct.
*/
module Types {

  datatype Option<+T> = None | Some(value: T)

  /** The three difficulty labels 'Fácil', 'Médio' and 'Difícil'. */
  datatype Difficulty = Easy | Medium | Hard

  datatype QuizSettings = QuizSettings(subject: string, numQuestions: int, difficulty: Difficulty)

  /** One generated question; `banca` is the examining body the question is attributed to. */
  datatype QuizQuestion = QuizQuestion(
    question: string,
    options: seq<string>,
    correctAnswerIndex: int,
    explanation: string,
    banca: string)

  datatype UserAnswer = UserAnswer(questionIndex: int, selectedAnswerIndex: int, isCorrect: bool)

  datatype StudyPlanSettings = StudyPlanSettings(
    goal: string,
    subjects: seq<string>,
    hoursPerWeek: int,
    durationInWeeks: int)

  datatype StudyActivity = StudyActivity(subject: string, activity: string, duration: string)

  datatype DailySchedule = DailySchedule(day: string, activities: seq<StudyActivity>)

  datatype WeeklyPlan = WeeklyPlan(week: int, focus: string, dailySchedule: seq<DailySchedule>)

  datatype StudyPlan = StudyPlan(title: string, weeklyPlan: seq<WeeklyPlan>)

  /** One finished quiz as kept in the statistics log; `timestamp` is milliseconds since the epoch. */
  datatype QuizResult = QuizResult(subject: string, totalQuestions: int, correctAnswers: int, timestamp: int)

  /** An answer whose correctness flag was computed from the question it answers. */
  predicate Graded(q: QuizQuestion, a: UserAnswer)
  {
    && 0 <= a.selectedAnswerIndex < |q.options|
    && a.isCorrect == (a.selectedAnswerIndex == q.correctAnswerIndex)
  }

  /** No two answers of the list are for the same question. */
  predicate DistinctIndices(answers: seq<UserAnswer>)
  {
    forall i, j :: 0 <= i < j < |answers| ==> answers[i].questionIndex != answers[j].questionIndex
  }

  /** Every answer is for one of the `n` questions of the quiz. */
  predicate IndicesBelow(answers: seq<UserAnswer>, n: int)
  {
    forall k :: 0 <= k < |answers| ==> 0 <= answers[k].questionIndex < n
  }

  /**
    `answers.find(a => a.questionIndex === questionIndex)`: the first answer
    recorded for the question, or None when there is none.
  */
  function FindAnswer(answers: seq<UserAnswer>, questionIndex: int): (r: Option<UserAnswer>)
    ensures r.None? <==> forall k :: 0 <= k < |answers| ==> answers[k].questionIndex != questionIndex
    ensures r.Some? ==> r.value in answers && r.value.questionIndex == questionIndex
    ensures r.Some? ==> exists k :: 0 <= k < |answers| && answers[k] == r.value
                                   && r.value.questionIndex == questionIndex
                                   && forall j :: 0 <= j < k ==> answers[j].questionIndex != questionIndex
  {
    if |answers| == 0 then None
    else if answers[0].questionIndex == questionIndex then Some(answers[0])
    else
      var r := FindAnswer(answers[1..], questionIndex);
      assert forall k :: 1 <= k < |answers| ==> answers[k] == answers[1..][k - 1];
      r
  }

  /** Appending an answer never changes which answer is found first for a question. */
  lemma {:induction false} FindAnswerAppend(answers: seq<UserAnswer>, x: UserAnswer, questionIndex: int)
    ensures FindAnswer(answers + [x], questionIndex)
         == if FindAnswer(answers, questionIndex).Some? then FindAnswer(answers, questionIndex)
            else if x.questionIndex == questionIndex then Some(x)
            else None
  {
    if |answers| > 0 {
      assert (answers + [x])[1..] == answers[1..] + [x];
      FindAnswerAppend(answers[1..], x, questionIndex);
    }
  }

  /** `answers.filter(a => a.isCorrect)`: the answers marked correct, in their order. */
  function CorrectAnswers(answers: seq<UserAnswer>): (r: seq<UserAnswer>)
    ensures |r| <= |answers|
    ensures forall a :: a in r <==> a in answers && a.isCorrect
  {
    if |answers| == 0 then []
    else if answers[0].isCorrect then [answers[0]] + CorrectAnswers(answers[1..])
    else CorrectAnswers(answers[1..])
  }

  /** The number of answers marked correct: at most one per answer, and none exactly when no answer is right. */
  function CountCorrect(answers: seq<UserAnswer>): (n: nat)
    ensures n <= |answers|
    ensures n == 0 <==> forall k :: 0 <= k < |answers| ==> !answers[k].isCorrect
  {
    var r := CorrectAnswers(answers);
    assert |r| > 0 ==> r[0] in r;
    |r|
  }

  /** Counting correct answers distributes over concatenation: a list's count is the sum of its parts' counts. */
  lemma {:induction false} CountCorrectConcat(a: seq<UserAnswer>, b: seq<UserAnswer>)
    ensures CountCorrect(a + b) == CountCorrect(a) + CountCorrect(b)
    ensures CountCorrect([]) == 0
    ensures |b| == 1 ==> CountCorrect(b) == if b[0].isCorrect then 1 else 0
  {
    if |a| > 0 {
      assert (a + b)[1..] == a[1..] + b;
      CountCorrectConcat(a[1..], b);
    } else {
      assert a + b == b;
    }
    if |b| == 1 {
      assert b[1..] == [];
    }
  }

  /** The set of question indexes that have an answer. */
  function AnsweredIndexes(answers: seq<UserAnswer>): (s: set<int>)
    ensures forall i :: i in s <==> exists k :: 0 <= k < |answers| && answers[k].questionIndex == i
  {
    if |answers| == 0 then {}
    else
      var init := answers[..|answers| - 1];
      assert forall k :: 0 <= k < |init| ==> init[k] == answers[k];
      AnsweredIndexes(init) + {answers[|answers| - 1].questionIndex}
  }

  /** With one answer per question, the answers and the answered questions are equally many. */
  lemma {:induction false} AnsweredIndexesCount(answers: seq<UserAnswer>)
    requires DistinctIndices(answers)
    ensures |AnsweredIndexes(answers)| == |answers|
  {
    if |answers| > 0 {
      var init := answers[..|answers| - 1];
      var last := answers[|answers| - 1];
      assert DistinctIndices(init) by {
        forall i, j | 0 <= i < j < |init| ensures init[i].questionIndex != init[j].questionIndex {
          assert init[i] == answers[i] && init[j] == answers[j];
        }
      }
      AnsweredIndexesCount(init);
      assert last.questionIndex !in AnsweredIndexes(init) by {
        forall k | 0 <= k < |init| ensures init[k].questionIndex != last.questionIndex {
          assert init[k] == answers[k];
        }
      }
    }
  }

  /** The indexes 0 .. n-1. */
  function Range(n: nat): (s: set<int>)
    ensures forall i :: i in s <==> 0 <= i < n
    ensures |s| == n
  {
    if n == 0 then {} else Range(n - 1) + {n - 1}
  }

  /**
    One answer per question and every answer for one of `n` questions: there
    are at most `n` answers, and exactly `n` when every question has one.
  */
  lemma {:induction false} AnswerCountBound(answers: seq<UserAnswer>, n: nat)
    requires DistinctIndices(answers) && IndicesBelow(answers, n)
    ensures |answers| <= n
    ensures (forall i :: 0 <= i < n ==> FindAnswer(answers, i).Some?) ==> |answers| == n
  {
    AnsweredIndexesCount(answers);
    var s := AnsweredIndexes(answers);
    var r := Range(n);
    assert s <= r;
    SubsetCard(s, r);
    if forall i :: 0 <= i < n ==> FindAnswer(answers, i).Some? {
      assert r <= s by {
        forall i | i in r ensures i in s {
          var a := FindAnswer(answers, i).value;
          assert a in answers && a.questionIndex == i;
          var k :| 0 <= k < |answers| && answers[k] == a;
          assert answers[k].questionIndex == i;
        }
      }
      SubsetCard(r, s);
    }
  }

  lemma SubsetCard(a: set<int>, b: set<int>)
    requires a <= b
    ensures |a| <= |b|
  {
    assert b == a + (b - a);
    assert a * (b - a) == {};
  }
}
