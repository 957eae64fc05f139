/**
  The quiz session (components/QuizScreen.tsx): a cursor over the generated
  questions and an append-only list of answers, at most one per question,
  each graded when it is given; bounded back and forth navigation; and the
  highlighting of the options of the current question.
*/
module QuizScreen {
  import opened Types

  /** The four looks of an option button. */
  datatype OptionStyle =
    | Neutral   // not answered yet: every option is selectable
    | Right     // the correct option, once the question is answered
    | Wrong     // the option the user picked, when it is not the correct one
    | Dimmed    // any other option of an answered question

  /**
    getButtonClass: the look of option `index` of question `q`, given the
    answer recorded for `q` (None when it has none). The correct-option test
    comes before the selected-option test.
  */
  function ButtonStyle(q: QuizQuestion, record: Option<UserAnswer>, index: int): (style: OptionStyle)
    ensures style == Neutral <==> record.None?
    ensures style == Right ==> index == q.correctAnswerIndex
    ensures style == Wrong ==> index == record.value.selectedAnswerIndex && index != q.correctAnswerIndex
  {
    if record.None? then Neutral
    else if index == q.correctAnswerIndex then Right
    else if index == record.value.selectedAnswerIndex then Wrong
    else Dimmed
  }

  /**
    For a graded answer, the correct option is shown as right; an option is
    shown as wrong exactly when it is the one picked and the answer was
    incorrect; every other option is dimmed. Without an answer, all are neutral.
  */
  lemma HighlightingMatchesAnswer(q: QuizQuestion, record: Option<UserAnswer>, index: int)
    requires record.Some? ==> Graded(q, record.value)
    ensures record.None? ==> ButtonStyle(q, record, index) == Neutral
    ensures record.Some? ==> (ButtonStyle(q, record, index) == Right <==> index == q.correctAnswerIndex)
    ensures record.Some? ==> (ButtonStyle(q, record, index) == Wrong
                              <==> index == record.value.selectedAnswerIndex && !record.value.isCorrect)
    ensures record.Some? ==> (ButtonStyle(q, record, index) == Dimmed
                              <==> index != q.correctAnswerIndex && index != record.value.selectedAnswerIndex)
  {
  }

  class QuizSession {
    const questions: seq<QuizQuestion>
    var currentQuestionIndex: int
    var userAnswers: seq<UserAnswer>

    /**
      The session invariant: the cursor is on a question; every answer is for
      a question of the quiz, graded against it, and the only answer for that
      question; and every question before the cursor has been answered.
    */
    ghost predicate Valid()
      reads this
    {
      && 0 <= currentQuestionIndex < |questions|
      && IndicesBelow(userAnswers, |questions|)
      && (forall k :: 0 <= k < |userAnswers| ==> Graded(questions[userAnswers[k].questionIndex], userAnswers[k]))
      && DistinctIndices(userAnswers)
      && (forall i :: 0 <= i < currentQuestionIndex ==> FindAnswer(userAnswers, i).Some?)
    }

    /** A fresh session starts on the first question with no answers. */
    constructor (questions: seq<QuizQuestion>)
      requires |questions| > 0
      ensures Valid()
      ensures this.questions == questions && currentQuestionIndex == 0 && userAnswers == []
    {
      this.questions := questions;
      currentQuestionIndex := 0;
      userAnswers := [];
    }

    /** currentAnswerRecord: the answer recorded for the current question, if any. */
    function CurrentAnswerRecord(): (r: Option<UserAnswer>)
      reads this
      requires Valid()
      ensures r.Some? ==> r.value in userAnswers && r.value.questionIndex == currentQuestionIndex
      ensures r.Some? ==> Graded(questions[currentQuestionIndex], r.value)
    {
      FindAnswer(userAnswers, currentQuestionIndex)
    }

    /**
      getButtonClass on the current question: all options neutral until it is
      answered; then right exactly for its correct option, wrong exactly for
      the picked option of an incorrect answer.
    */
    function ButtonClass(index: int): (style: OptionStyle)
      reads this
      requires Valid()
      ensures style == Neutral <==> CurrentAnswerRecord().None?
      ensures CurrentAnswerRecord().Some?
              ==> (style == Right <==> index == questions[currentQuestionIndex].correctAnswerIndex)
      ensures CurrentAnswerRecord().Some?
              ==> (style == Wrong <==> index == CurrentAnswerRecord().value.selectedAnswerIndex
                                       && !CurrentAnswerRecord().value.isCorrect)
    {
      HighlightingMatchesAnswer(questions[currentQuestionIndex], CurrentAnswerRecord(), index);
      ButtonStyle(questions[currentQuestionIndex], CurrentAnswerRecord(), index)
    }

    /**
      handleAnswerSelect: on an answered question nothing changes; otherwise
      exactly one answer, graded against the current question, is appended.
    */
    method SelectAnswer(index: int)
      requires Valid()
      requires 0 <= index < |questions[currentQuestionIndex].options|
      modifies this`userAnswers
      ensures Valid()
      ensures old(CurrentAnswerRecord()).Some? ==> userAnswers == old(userAnswers)
      ensures old(CurrentAnswerRecord()).None?
              ==> userAnswers == old(userAnswers) + [UserAnswer(currentQuestionIndex, index,
                                                                index == questions[currentQuestionIndex].correctAnswerIndex)]
    {
      if CurrentAnswerRecord().Some? {
        return;
      }
      var isCorrect := index == questions[currentQuestionIndex].correctAnswerIndex;
      var newAnswer := UserAnswer(currentQuestionIndex, index, isCorrect);
      forall i | 0 <= i < currentQuestionIndex + 1
        ensures FindAnswer(userAnswers + [newAnswer], i).Some?
      {
        FindAnswerAppend(userAnswers, newAnswer, i);
      }
      userAnswers := userAnswers + [newAnswer];
    }

    /**
      handleNextQuestion, reachable only once the current question is answered
      (the button is shown only then): before the last question the cursor
      moves on; on the last question the cursor stays and the answers are
      handed over, one for every question.
    */
    method NextQuestion() returns (completed: Option<seq<UserAnswer>>)
      requires Valid()
      requires CurrentAnswerRecord().Some?
      modifies this`currentQuestionIndex
      ensures Valid()
      ensures userAnswers == old(userAnswers)
      ensures old(currentQuestionIndex) < |questions| - 1
              ==> currentQuestionIndex == old(currentQuestionIndex) + 1 && completed.None?
      ensures old(currentQuestionIndex) == |questions| - 1
              ==> currentQuestionIndex == old(currentQuestionIndex) && completed == Some(userAnswers)
      ensures completed.Some? ==> forall i :: 0 <= i < |questions| ==> FindAnswer(completed.value, i).Some?
      ensures completed.Some? ==> |completed.value| == |questions|
    {
      if currentQuestionIndex < |questions| - 1 {
        currentQuestionIndex := currentQuestionIndex + 1;
        completed := None;
      } else {
        AnswerCountBound(userAnswers, |questions|);
        completed := Some(userAnswers);
      }
    }

    /** handlePrevQuestion: step back unless on the first question; answers are kept. */
    method PrevQuestion()
      requires Valid()
      modifies this`currentQuestionIndex
      ensures Valid()
      ensures userAnswers == old(userAnswers)
      ensures currentQuestionIndex == if old(currentQuestionIndex) > 0 then old(currentQuestionIndex) - 1
                                      else old(currentQuestionIndex)
    {
      if currentQuestionIndex > 0 {
        currentQuestionIndex := currentQuestionIndex - 1;
      }
    }
  }
}
