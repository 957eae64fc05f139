/**
  The results screen (components/ResultsScreen.tsx): the number of correct
  answers, the score percentage and its colour band, and the per-question
  review line.
*/
module ResultsScreen {
  import opened Types

  /** `(correctAnswersCount / questions.length) * 100` */
  function ScorePercentage(correct: int, total: int): (p: real)
    requires total > 0
    ensures p * (total as real) == (correct as real) * 100.0
  {
    ((correct as real) / (total as real)) * 100.0
  }

  /** The three text colours of the score: green, yellow and red. */
  datatype ScoreColor = Green | Yellow | Red

  /** Green from 70 %, yellow from 50 %, red below, stated on the counts. */
  function GetScoreColor(correct: int, total: int): (c: ScoreColor)
    requires total > 0
    ensures c == Green <==> 100 * correct >= 70 * total
    ensures c == Yellow <==> 50 * total <= 100 * correct < 70 * total
    ensures c == Red <==> 100 * correct < 50 * total
  {
    var p := ScorePercentage(correct, total);
    PercentageThreshold(correct, total, p, 70);
    PercentageThreshold(correct, total, p, 50);
    if p >= 70.0 then Green else if p >= 50.0 then Yellow else Red
  }

  /** A percentage reaches a threshold exactly when the cross-multiplied counts do. */
  lemma PercentageThreshold(correct: int, total: int, p: real, threshold: int)
    requires total > 0
    requires p * (total as real) == (correct as real) * 100.0
    ensures p >= threshold as real <==> 100 * correct >= threshold * total
  {
    var t := total as real;
    assert (100 * correct) as real == p * t;
    assert (threshold * total) as real == (threshold as real) * t;
    if p >= threshold as real {
      assert p * t >= (threshold as real) * t;
    } else {
      assert p * t < (threshold as real) * t;
    }
  }

  /**
    The count shown next to the red cross: never more than the number of
    questions, and never negative while there are no more answers than questions.
  */
  function IncorrectCount(questions: seq<QuizQuestion>, answers: seq<UserAnswer>): (n: int)
    ensures n <= |questions|
    ensures |answers| <= |questions| ==> 0 <= n
  {
    |questions| - CountCorrect(answers)
  }

  /**
    With one answer per question, the correct and incorrect counts are both
    non-negative and add up to the number of questions.
  */
  lemma ScoreCountsBounded(questions: seq<QuizQuestion>, answers: seq<UserAnswer>)
    requires DistinctIndices(answers) && IndicesBelow(answers, |questions|)
    ensures 0 <= CountCorrect(answers) <= |questions|
    ensures 0 <= IncorrectCount(questions, answers)
    ensures CountCorrect(answers) + IncorrectCount(questions, answers) == |questions|
  {
    AnswerCountBound(answers, |questions|);
  }

  /** `String.fromCharCode(65 + i)`: 0 is 'A', 1 is 'B', and -1 is '@'. */
  function Letter(i: int): (c: char)
    requires -65 <= i < 0xD800 - 65
    ensures c as int - 65 == i
  {
    (65 + i) as char
  }

  const NotAnswered: string := "Não respondida"

  /** What the review of one question shows about the user's answer. */
  datatype Review = Review(markedCorrect: bool, selectedLetter: char, selectedText: string)

  /** The answer indexes the review may show: letters A to Z. */
  predicate OptionIndex(q: QuizQuestion, i: int)
  {
    0 <= i < |q.options| && i < 26
  }

  /**
    The review of question `index`: the first answer recorded for it, or,
    when there is none, "Não respondida" with the letter for -1, marked
    incorrect.
  */
  function ReviewOf(q: QuizQuestion, answers: seq<UserAnswer>, index: int): (r: Review)
    requires FindAnswer(answers, index).Some? ==> OptionIndex(q, FindAnswer(answers, index).value.selectedAnswerIndex)
    ensures FindAnswer(answers, index).None?
            ==> r == Review(false, '@', NotAnswered)
    ensures FindAnswer(answers, index).Some?
            ==> var a := FindAnswer(answers, index).value;
                r.markedCorrect == a.isCorrect
                && r.selectedText == q.options[a.selectedAnswerIndex]
                && r.selectedLetter as int == 65 + a.selectedAnswerIndex
  {
    match FindAnswer(answers, index)
    case None => Review(false, Letter(-1), NotAnswered)
    case Some(a) => Review(a.isCorrect, Letter(a.selectedAnswerIndex), q.options[a.selectedAnswerIndex])
  }

  /**
    For answers graded against their question, the review marks a question
    correct exactly when it was answered and the letter shown for the answer
    is the letter of the correct option.
  */
  lemma ReviewMarksMatchLetters(q: QuizQuestion, answers: seq<UserAnswer>, index: int)
    requires OptionIndex(q, q.correctAnswerIndex)
    requires forall a :: a in answers && a.questionIndex == index
                         ==> Graded(q, a) && OptionIndex(q, a.selectedAnswerIndex)
    ensures ReviewOf(q, answers, index).markedCorrect
            <==> FindAnswer(answers, index).Some? && ReviewOf(q, answers, index).selectedLetter == Letter(q.correctAnswerIndex)
  {
  }

  /** Options 0 to 4 are lettered A to E; an unanswered question shows '@'. */
  lemma LettersOfFiveOptions()
    ensures Letter(0) == 'A' && Letter(1) == 'B' && Letter(2) == 'C' && Letter(3) == 'D' && Letter(4) == 'E'
    ensures Letter(-1) == '@'
  {
  }

  /** One correct answer out of two questions scores 50 %, in the yellow band. */
  lemma HalfRightScoresFifty()
    ensures CountCorrect([UserAnswer(0, 1, true), UserAnswer(1, 1, false)]) == 1
    ensures ScorePercentage(1, 2) == 50.0
    ensures GetScoreColor(1, 2) == Yellow
  {
    CountCorrectConcat([UserAnswer(0, 1, true)], [UserAnswer(1, 1, false)]);
    CountCorrectConcat([], [UserAnswer(0, 1, true)]);
  }
}
