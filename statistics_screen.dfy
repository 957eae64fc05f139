/**
  The performance statistics screen (components/StatisticsScreen.tsx): the
  aggregate over the logged quiz results (totals, overall accuracy, and one
  entry per subject), the worst-first ordering of the subject entries, and
  the confirmed clearing of the history.
*/
module StatisticsScreen {
  import opened Types
  import opened LocalStorage
  import Statistics

  /** Which of a result's two counts a sum adds up. */
  datatype Measure = Questions | Correct

  function Count(r: QuizResult, m: Measure): int
  {
    match m
    case Questions => r.totalQuestions
    case Correct => r.correctAnswers
  }

  /** `results.reduce((sum, r) => sum + <count>, 0)`, folded from the left. */
  function Sum(results: seq<QuizResult>, m: Measure): (s: int)
    ensures (forall k :: 0 <= k < |results| ==> Count(results[k], m) >= 0) ==> s >= 0
  {
    if |results| == 0 then 0
    else Sum(results[..|results| - 1], m) + Count(results[|results| - 1], m)
  }

  /** The same sum restricted to the results whose subject is exactly `subject`. */
  function SubjectSum(results: seq<QuizResult>, subject: string, m: Measure): int
  {
    if |results| == 0 then 0
    else
      var last := results[|results| - 1];
      SubjectSum(results[..|results| - 1], subject, m) + (if last.subject == subject then Count(last, m) else 0)
  }

  /** With no negative counts, one subject's sum lies between 0 and the sum over all results. */
  lemma {:induction false} SubjectSumWithinSum(results: seq<QuizResult>, subject: string, m: Measure)
    requires forall k :: 0 <= k < |results| ==> Count(results[k], m) >= 0
    ensures 0 <= SubjectSum(results, subject, m) <= Sum(results, m)
  {
    if |results| > 0 {
      var init := results[..|results| - 1];
      assert forall k :: 0 <= k < |init| ==> init[k] == results[k];
      SubjectSumWithinSum(init, subject, m);
    }
  }

  predicate DistinctStrings(ss: seq<string>)
  {
    forall i, j :: 0 <= i < j < |ss| ==> ss[i] != ss[j]
  }

  /**
    The subjects in the order of their first occurrence: the key order of the
    JavaScript Map that the grouping loop fills.
  */
  function Subjects(results: seq<QuizResult>): (ss: seq<string>)
    ensures DistinctStrings(ss)
    ensures forall s :: s in ss <==> exists k :: 0 <= k < |results| && results[k].subject == s
  {
    if |results| == 0 then []
    else
      var init := results[..|results| - 1];
      var last := results[|results| - 1];
      var before := Subjects(init);
      assert forall k :: 0 <= k < |init| ==> init[k] == results[k];
      if last.subject in before then before else before + [last.subject]
  }

  /** There are no more subjects than results. */
  lemma {:induction false} SubjectsAtMostResults(results: seq<QuizResult>)
    ensures |Subjects(results)| <= |results|
  {
    if |results| > 0 {
      SubjectsAtMostResults(results[..|results| - 1]);
    }
  }

  /** The running totals the grouping loop keeps per subject. */
  datatype Tally = Tally(total: int, correct: int)

  /**
    `(correct / total) * 100`. A total of zero, where JavaScript yields NaN or
    Infinity, is kept apart as Undefined.
  */
  datatype Accuracy = Percent(value: real) | Undefined

  function AccuracyOf(correct: int, total: int): (a: Accuracy)
    ensures a.Undefined? <==> total == 0
    ensures a.Percent? ==> a.value * (total as real) == (correct as real) * 100.0
  {
    if total == 0 then Undefined else Percent(((correct as real) / (total as real)) * 100.0)
  }

  datatype SubjectStats = SubjectStats(subject: string, totalQuestions: int, correctAnswers: int, accuracy: Accuracy)

  datatype OverallStats = OverallStats(
    totalQuizzes: nat,
    totalQuestions: int,
    totalCorrect: int,
    overallAccuracy: real,
    subjectStats: seq<SubjectStats>)

  /** `totalQuestions > 0 ? (totalCorrect / totalQuestions) * 100 : 0` */
  function OverallAccuracy(results: seq<QuizResult>): (p: real)
    ensures Sum(results, Questions) <= 0 ==> p == 0.0
    ensures Sum(results, Questions) > 0
            ==> p * (Sum(results, Questions) as real) == (Sum(results, Correct) as real) * 100.0
  {
    var total := Sum(results, Questions);
    if total > 0 then ((Sum(results, Correct) as real) / (total as real)) * 100.0 else 0.0
  }

  /**
    The entry shown for one subject: its accuracy is undefined exactly when
    its question total is zero, and is otherwise its correct count over its
    question total, times 100.
  */
  function SubjectEntry(results: seq<QuizResult>, subject: string): (e: SubjectStats)
    ensures e.subject == subject
    ensures e.accuracy.Undefined? <==> e.totalQuestions == 0
    ensures e.accuracy.Percent? ==> e.accuracy.value * (e.totalQuestions as real) == (e.correctAnswers as real) * 100.0
  {
    var total := SubjectSum(results, subject, Questions);
    var correct := SubjectSum(results, subject, Correct);
    SubjectStats(subject, total, correct, AccuracyOf(correct, total))
  }

  /** One entry per subject of `subjects`, in that order. */
  function EntriesOf(results: seq<QuizResult>, subjects: seq<string>): (es: seq<SubjectStats>)
    ensures |es| == |subjects|
    ensures forall k :: 0 <= k < |subjects| ==> es[k] == SubjectEntry(results, subjects[k])
  {
    if |subjects| == 0 then []
    else EntriesOf(results, subjects[..|subjects| - 1]) + [SubjectEntry(results, subjects[|subjects| - 1])]
  }

  /**
    The statistics of a non-empty result log: one quiz per result, and at
    most one entry per result, no subject listed twice.
  */
  function StatsOf(results: seq<QuizResult>): (stats: OverallStats)
    ensures stats.totalQuizzes == |results| && |stats.subjectStats| <= |results|
    ensures forall i, j :: 0 <= i < j < |stats.subjectStats|
              ==> stats.subjectStats[i].subject != stats.subjectStats[j].subject
  {
    SubjectsAtMostResults(results);
    OverallStats(
      |results|,
      Sum(results, Questions),
      Sum(results, Correct),
      OverallAccuracy(results),
      EntriesOf(results, Subjects(results)))
  }

  /**
    The grouping loop: a Map from subject to running totals, filled in one
    pass; `order` is the Map's key order.
  */
  method GroupBySubject(results: seq<QuizResult>) returns (order: seq<string>, groups: map<string, Tally>)
    ensures order == Subjects(results)
    ensures groups.Keys == set s | s in order
    ensures forall s :: s in groups
              ==> groups[s] == Tally(SubjectSum(results, s, Questions), SubjectSum(results, s, Correct))
  {
    order, groups := [], map[];
    for i := 0 to |results|
      invariant order == Subjects(results[..i])
      invariant groups.Keys == set s | s in order
      invariant forall s :: s in groups
                  ==> groups[s] == Tally(SubjectSum(results[..i], s, Questions), SubjectSum(results[..i], s, Correct))
    {
      var result := results[i];
      assert results[..i + 1][..i] == results[..i];
      assert forall s, m :: SubjectSum(results[..i + 1], s, m)
                            == SubjectSum(results[..i], s, m) + (if result.subject == s then Count(result, m) else 0);
      var current := if result.subject in groups then groups[result.subject] else Tally(0, 0);
      current := Tally(current.total + result.totalQuestions, current.correct + result.correctAnswers);
      if result.subject !in groups {
        AbsentSubjectSumsToZero(results[..i], result.subject, Questions);
        AbsentSubjectSumsToZero(results[..i], result.subject, Correct);
        order := order + [result.subject];
      }
      groups := groups[result.subject := current];
    }
    assert results[..|results|] == results;
  }

  /**
    The memoised statistics: none for an empty log, otherwise the totals,
    the overall accuracy and one entry per subject in first-seen order.
  */
  method ComputeStats(results: seq<QuizResult>) returns (stats: Option<OverallStats>)
    ensures stats.None? <==> |results| == 0
    ensures stats.Some? ==> stats.value == StatsOf(results)
  {
    if |results| == 0 {
      return None;
    }
    var totalQuizzes := |results|;
    var totalQuestions := Sum(results, Questions);
    var totalCorrect := Sum(results, Correct);
    var overallAccuracy := OverallAccuracy(results);
    var order, groups := GroupBySubject(results);
    var subjectStats: seq<SubjectStats> := [];
    for k := 0 to |order|
      invariant |subjectStats| == k
      invariant forall j :: 0 <= j < k ==> subjectStats[j] == SubjectEntry(results, order[j])
    {
      var tally := groups[order[k]];
      subjectStats := subjectStats + [SubjectStats(order[k], tally.total, tally.correct, AccuracyOf(tally.correct, tally.total))];
    }
    assert subjectStats == EntriesOf(results, order);
    stats := Some(OverallStats(totalQuizzes, totalQuestions, totalCorrect, overallAccuracy, subjectStats));
  }

  // ---------------------------------------------------------------------------
  // The per-subject totals add up to the overall totals.

  /** The sum of one count over the entries of `subjects`. */
  function GroupSum(results: seq<QuizResult>, subjects: seq<string>, m: Measure): int
  {
    if |subjects| == 0 then 0
    else GroupSum(results, subjects[..|subjects| - 1], m) + SubjectSum(results, subjects[|subjects| - 1], m)
  }

  function EntryCount(e: SubjectStats, m: Measure): int
  {
    match m
    case Questions => e.totalQuestions
    case Correct => e.correctAnswers
  }

  function EntrySum(entries: seq<SubjectStats>, m: Measure): int
  {
    if |entries| == 0 then 0
    else EntrySum(entries[..|entries| - 1], m) + EntryCount(entries[|entries| - 1], m)
  }

  lemma {:induction false} EntrySumIsGroupSum(results: seq<QuizResult>, subjects: seq<string>, m: Measure)
    ensures EntrySum(EntriesOf(results, subjects), m) == GroupSum(results, subjects, m)
  {
    if |subjects| > 0 {
      var init := subjects[..|subjects| - 1];
      EntrySumIsGroupSum(results, init, m);
      assert EntriesOf(results, subjects)[..|subjects| - 1] == EntriesOf(results, init);
    }
  }

  /** A subject that occurs in no result contributes nothing. */
  lemma {:induction false} AbsentSubjectSumsToZero(results: seq<QuizResult>, subject: string, m: Measure)
    requires subject !in Subjects(results)
    ensures SubjectSum(results, subject, m) == 0
  {
    if |results| > 0 {
      var init := results[..|results| - 1];
      assert forall s :: s in Subjects(init) ==> s in Subjects(results) by {
        forall s | s in Subjects(init) ensures s in Subjects(results) {
          var k :| 0 <= k < |init| && init[k].subject == s;
          assert results[k] == init[k];
        }
      }
      AbsentSubjectSumsToZero(init, subject, m);
    }
  }

  /** Dropping the last result takes its count off the group sum of whichever listed subject it belongs to. */
  lemma {:induction false} GroupSumDropLast(results: seq<QuizResult>, subjects: seq<string>, m: Measure)
    requires |results| > 0 && DistinctStrings(subjects)
    ensures GroupSum(results, subjects, m)
         == GroupSum(results[..|results| - 1], subjects, m)
            + (if results[|results| - 1].subject in subjects then Count(results[|results| - 1], m) else 0)
  {
    if |subjects| > 0 {
      var init := subjects[..|subjects| - 1];
      assert DistinctStrings(init);
      assert results[|results| - 1].subject in subjects <==>
             results[|results| - 1].subject in init || results[|results| - 1].subject == subjects[|subjects| - 1];
      GroupSumDropLast(results, init, m);
    }
  }

  /** The group sums over all subjects equal the overall sum. */
  lemma {:induction false} GroupSumIsSum(results: seq<QuizResult>, m: Measure)
    ensures GroupSum(results, Subjects(results), m) == Sum(results, m)
  {
    if |results| > 0 {
      var init := results[..|results| - 1];
      var last := results[|results| - 1];
      var before := Subjects(init);
      GroupSumIsSum(init, m);
      GroupSumDropLast(results, before, m);
      if last.subject !in before {
        assert Subjects(results) == before + [last.subject];
        assert (before + [last.subject])[..|before|] == before;
        AbsentSubjectSumsToZero(init, last.subject, m);
      }
    }
  }

  /**
    The per-subject question totals add up to the overall question total, and
    the per-subject correct counts to the overall correct count.
  */
  lemma SubjectTotalsAddUp(results: seq<QuizResult>)
    ensures EntrySum(StatsOf(results).subjectStats, Questions) == StatsOf(results).totalQuestions
    ensures EntrySum(StatsOf(results).subjectStats, Correct) == StatsOf(results).totalCorrect
  {
    EntrySumIsGroupSum(results, Subjects(results), Questions);
    EntrySumIsGroupSum(results, Subjects(results), Correct);
    GroupSumIsSum(results, Questions);
    GroupSumIsSum(results, Correct);
  }

  // ---------------------------------------------------------------------------
  // A subject named "__proto__". The screen stores the entries in a plain
  // object and lists them with Object.entries; assigning to the key
  // "__proto__" of a plain object replaces its prototype instead of adding an
  // entry, so that subject is never listed. StatsOf lists it, as intended.

  const ProtoKey: string := "__proto__"

  /** The keys Object.entries lists once each subject of `subjects` is assigned into `{}`, in order. */
  function RecordKeys(subjects: seq<string>): (keys: seq<string>)
    ensures |keys| <= |subjects|
    ensures forall s :: s in keys <==> s in subjects && s != ProtoKey
  {
    if |subjects| == 0 then []
    else
      var init, last := subjects[..|subjects| - 1], subjects[|subjects| - 1];
      assert subjects == init + [last];
      RecordKeys(init) + (if last == ProtoKey then [] else [last])
  }

  /**
    The per-subject entries the screen lists: each is the entry of a subject
    of the log other than "__proto__", and every such subject is listed with
    its entry.
  */
  function ListedEntries(results: seq<QuizResult>): (es: seq<SubjectStats>)
    ensures forall k :: 0 <= k < |es| ==> es[k].subject != ProtoKey && es[k].subject in Subjects(results)
    ensures forall k :: 0 <= k < |es| ==> es[k] == SubjectEntry(results, es[k].subject)
    ensures forall s :: s in Subjects(results) && s != ProtoKey ==> SubjectEntry(results, s) in es
  {
    var keys := RecordKeys(Subjects(results));
    assert forall k :: 0 <= k < |keys| ==> keys[k] in keys;
    var es := EntriesOf(results, keys);
    assert forall s :: s in keys ==> SubjectEntry(results, s) in es by {
      forall s | s in keys ensures SubjectEntry(results, s) in es {
        var k :| 0 <= k < |keys| && keys[k] == s;
        assert es[k] == SubjectEntry(results, s);
      }
    }
    es
  }




  /** The entries without the one for "__proto__", in order. */
  function WithoutProto(entries: seq<SubjectStats>): seq<SubjectStats>
  {
    if |entries| == 0 then []
    else
      var last := entries[|entries| - 1];
      WithoutProto(entries[..|entries| - 1]) + (if last.subject == ProtoKey then [] else [last])
  }

  lemma {:induction false} EntriesOfRecordKeys(results: seq<QuizResult>, subjects: seq<string>)
    ensures EntriesOf(results, RecordKeys(subjects)) == WithoutProto(EntriesOf(results, subjects))
  {
    if |subjects| > 0 {
      var init, last := subjects[..|subjects| - 1], subjects[|subjects| - 1];
      EntriesOfRecordKeys(results, init);
      var all := EntriesOf(results, subjects);
      assert all[..|all| - 1] == EntriesOf(results, init);
      assert all[|all| - 1].subject == last;
      if last != ProtoKey {
        var keys := RecordKeys(init) + [last];
        assert keys[..|keys| - 1] == RecordKeys(init);
      }
    }
  }

  /** The screen lists exactly the intended entries with the one for "__proto__" taken out. */
  lemma ListedEntriesAreStatsWithoutProto(results: seq<QuizResult>)
    ensures ListedEntries(results) == WithoutProto(StatsOf(results).subjectStats)
  {
    EntriesOfRecordKeys(results, Subjects(results));
  }

  /**
    One quiz of five questions on the subject "__proto__": the screen lists
    no subject at all, so the per-subject question totals add up to 0, not 5.
  */
  lemma ProtoSubjectIsDropped(timestamp: int)
    ensures var results := [QuizResult(ProtoKey, 5, 3, timestamp)];
            && ListedEntries(results) == []
            && Sum(results, Questions) == 5
            && EntrySum(ListedEntries(results), Questions) != Sum(results, Questions)
  {
    var results := [QuizResult(ProtoKey, 5, 3, timestamp)];
    assert results[..0] == [];
    assert Subjects(results) == [ProtoKey];
    assert [ProtoKey][..0] == [];
    assert RecordKeys([ProtoKey]) == [];
  }

  lemma {:induction false} RecordKeysWithoutProto(subjects: seq<string>)
    requires ProtoKey !in subjects
    ensures RecordKeys(subjects) == subjects
  {
    if |subjects| > 0 {
      var init := subjects[..|subjects| - 1];
      assert ProtoKey !in init;
      RecordKeysWithoutProto(init);
      assert subjects == init + [subjects[|subjects| - 1]];
    }
  }

  /** Without a "__proto__" subject the listed entries are exactly the intended ones, and their totals add up. */
  lemma ListedEntriesWithoutProto(results: seq<QuizResult>)
    requires forall k :: 0 <= k < |results| ==> results[k].subject != ProtoKey
    ensures ListedEntries(results) == StatsOf(results).subjectStats
    ensures EntrySum(ListedEntries(results), Questions) == Sum(results, Questions)
    ensures EntrySum(ListedEntries(results), Correct) == Sum(results, Correct)
  {
    RecordKeysWithoutProto(Subjects(results));
    SubjectTotalsAddUp(results);
  }

  // ---------------------------------------------------------------------------
  // Accuracy bounds.

  /** Every logged result has between 0 and totalQuestions correct answers. */
  predicate Consistent(results: seq<QuizResult>)
  {
    forall k :: 0 <= k < |results| ==> 0 <= results[k].correctAnswers <= results[k].totalQuestions
  }

  lemma {:induction false} SumsOrdered(results: seq<QuizResult>)
    requires Consistent(results)
    ensures 0 <= Sum(results, Correct) <= Sum(results, Questions)
  {
    if |results| > 0 {
      var init := results[..|results| - 1];
      assert Consistent(init) by {
        forall k | 0 <= k < |init| ensures 0 <= init[k].correctAnswers <= init[k].totalQuestions {
          assert init[k] == results[k];
        }
      }
      SumsOrdered(init);
    }
  }

  /** The overall accuracy is a percentage in [0, 100] for a consistent log. */
  lemma OverallAccuracyInRange(results: seq<QuizResult>)
    requires Consistent(results)
    ensures 0.0 <= OverallAccuracy(results) <= 100.0
  {
    SumsOrdered(results);
    var c, q := Sum(results, Correct) as real, Sum(results, Questions) as real;
    if q > 0.0 {
      RatioInUnit(c, q);
    }
  }

  lemma RatioInUnit(c: real, q: real)
    requires 0.0 <= c <= q && 0.0 < q
    ensures 0.0 <= c / q <= 1.0
  {
    var inv := 1.0 / q;
    assert inv > 0.0;
    assert c / q == c * inv;
    assert c * inv <= q * inv;
    assert q * inv == 1.0;
  }

  /** Results of quizzes that all had questions give every subject a defined accuracy. */
  lemma {:induction false} PositiveTotalsDefineAccuracy(results: seq<QuizResult>)
    requires forall k :: 0 <= k < |results| ==> results[k].totalQuestions > 0
    ensures AllDefined(StatsOf(results).subjectStats)
  {
    var ss := Subjects(results);
    forall j | 0 <= j < |ss| ensures SubjectSum(results, ss[j], Questions) > 0 {
      assert ss[j] in ss;
      var k :| 0 <= k < |results| && results[k].subject == ss[j];
      PresentSubjectSumPositive(results, ss[j], k);
    }
  }

  lemma {:induction false} PresentSubjectSumPositive(results: seq<QuizResult>, subject: string, k: nat)
    requires forall i :: 0 <= i < |results| ==> results[i].totalQuestions > 0
    requires k < |results| && results[k].subject == subject
    ensures SubjectSum(results, subject, Questions) > 0
  {
    var init := results[..|results| - 1];
    if k < |results| - 1 {
      assert init[k] == results[k];
      PresentSubjectSumPositive(init, subject, k);
    } else {
      NonNegativeSubjectSum(init, subject);
    }
  }

  lemma {:induction false} NonNegativeSubjectSum(results: seq<QuizResult>, subject: string)
    requires forall i :: 0 <= i < |results| ==> results[i].totalQuestions > 0
    ensures SubjectSum(results, subject, Questions) >= 0
  {
    if |results| > 0 {
      var init := results[..|results| - 1];
      assert forall i :: 0 <= i < |init| ==> init[i] == results[i];
      NonNegativeSubjectSum(init, subject);
    }
  }

  // ---------------------------------------------------------------------------
  // Worst subjects first: `sort(([, a], [, b]) => a.accuracy - b.accuracy)`.

  predicate AllDefined(entries: seq<SubjectStats>)
  {
    forall k :: 0 <= k < |entries| ==> entries[k].accuracy.Percent?
  }

  predicate Ascending(entries: seq<SubjectStats>)
  {
    && AllDefined(entries)
    && forall i, j :: 0 <= i < j < |entries| ==> entries[i].accuracy.value <= entries[j].accuracy.value
  }

  /** Places `e` after every entry whose accuracy is at most its own, as a stable sort does. */
  function Insert(sorted: seq<SubjectStats>, e: SubjectStats): (r: seq<SubjectStats>)
    requires Ascending(sorted) && e.accuracy.Percent?
    ensures Ascending(r)
    ensures multiset(r) == multiset(sorted) + multiset{e}
  {
    if |sorted| == 0 then [e]
    else
      var init, last := sorted[..|sorted| - 1], sorted[|sorted| - 1];
      if last.accuracy.value <= e.accuracy.value then
        AppendKeepsAscending(sorted, e);
        sorted + [e]
      else
        assert sorted == init + [last];
        var r := Insert(init, e);
        BoundedAbove(r, init, e, last.accuracy.value);
        AppendKeepsAscending(r, last);
        r + [last]
  }

  /** An entry at least as accurate as every entry of an ascending list can go last. */
  lemma AppendKeepsAscending(sorted: seq<SubjectStats>, e: SubjectStats)
    requires Ascending(sorted) && e.accuracy.Percent?
    requires forall k :: 0 <= k < |sorted| ==> sorted[k].accuracy.value <= e.accuracy.value
    ensures Ascending(sorted + [e])
  {
  }

  /** A permutation of `init` plus `e` stays below any bound that `init` and `e` stay below. */
  lemma BoundedAbove(r: seq<SubjectStats>, init: seq<SubjectStats>, e: SubjectStats, bound: real)
    requires AllDefined(init) && e.accuracy.Percent? && e.accuracy.value <= bound
    requires forall k :: 0 <= k < |init| ==> init[k].accuracy.value <= bound
    requires multiset(r) == multiset(init) + multiset{e}
    ensures forall k :: 0 <= k < |r| ==> r[k].accuracy.Percent? && r[k].accuracy.value <= bound
  {
    forall k | 0 <= k < |r| ensures r[k].accuracy.Percent? && r[k].accuracy.value <= bound {
      assert r[k] in multiset(r);
      if r[k] != e {
        assert r[k] in multiset(init);
        var j :| 0 <= j < |init| && init[j] == r[k];
      }
    }
  }

  /** The subject entries ordered by ascending accuracy: sorted, and a permutation of the input. */
  function SortByAccuracy(entries: seq<SubjectStats>): (r: seq<SubjectStats>)
    requires AllDefined(entries)
    ensures Ascending(r)
    ensures multiset(r) == multiset(entries)
  {
    if |entries| == 0 then []
    else
      var init := entries[..|entries| - 1];
      assert entries == init + [entries[|entries| - 1]];
      Insert(SortByAccuracy(init), entries[|entries| - 1])
  }

  // ---------------------------------------------------------------------------
  // The screen's own state.

  class Screen {
    var results: seq<QuizResult>
    const storage: Storage

    constructor (storage: Storage)
      ensures results == [] && this.storage == storage
    {
      results := [];
      this.storage := storage;
    }

    /** The mount effect: load the log. */
    method Mount()
      modifies this
      ensures results == Statistics.StoredResults(storage.items)
    {
      results := Statistics.GetQuizResults(storage);
    }

    /**
      Clear the history only when the user confirms the dialog (`confirmed`);
      declining changes nothing.
    */
    method ClearHistory(confirmed: bool)
      modifies this, storage
      ensures confirmed ==> results == [] && storage.items == Statistics.Cleared(old(storage.items))
      ensures confirmed ==> Statistics.StoredResults(storage.items) == []
      ensures !confirmed ==> results == old(results) && storage.items == old(storage.items)
    {
      if confirmed {
        Statistics.ClearQuizResults(storage);
        results := [];
      }
    }
  }
}
