/**
  The study-plan form (components/StudyPlanConfigurationScreen.tsx): four
  form fields with their defaults, and the submit handler, which splits the
  subject text into lines, keeps the lines that are not blank, and either
  refuses an empty list or hands the settings on.
*/
module StudyPlanConfigurationScreen {
  import opened Types

  // ---------------------------------------------------------------------------
  // `text.split('\n')` and its inverse, `lines.join('\n')`.

  /** The pieces of `s` between newlines; "" splits into [""], and a trailing newline leaves a final "". */
  function Split(s: string): (lines: seq<string>)
    ensures |lines| >= 1
    ensures forall k :: 0 <= k < |lines| ==> '\n' !in lines[k]
  {
    if |s| == 0 then [""]
    else
      var rest := Split(s[1..]);
      if s[0] == '\n' then [""] + rest
      else [[s[0]] + rest[0]] + rest[1..]
  }

  function Join(lines: seq<string>): string
    requires |lines| >= 1
  {
    if |lines| == 1 then lines[0] else lines[0] + "\n" + Join(lines[1..])
  }

  lemma {:induction false} JoinFirst(c: char, lines: seq<string>)
    requires |lines| >= 1
    ensures Join([[c] + lines[0]] + lines[1..]) == [c] + Join(lines)
  {
    var moved := [[c] + lines[0]] + lines[1..];
    if |lines| > 1 {
      assert moved[1..] == lines[1..];
    }
  }

  /** Joining the pieces with newlines gives back the text: splitting loses nothing. */
  lemma {:induction false} JoinSplit(s: string)
    ensures Join(Split(s)) == s
  {
    if |s| > 0 {
      var rest := Split(s[1..]);
      JoinSplit(s[1..]);
      if s[0] == '\n' {
        assert ([""] + rest)[1..] == rest;
      } else {
        JoinFirst(s[0], rest);
      }
      assert s == [s[0]] + s[1..];
    }
  }

  /** Splitting newline-free lines joined with newlines gives back the lines. */
  lemma {:induction false} SplitJoin(lines: seq<string>)
    requires |lines| >= 1
    requires forall k :: 0 <= k < |lines| ==> '\n' !in lines[k]
    ensures Split(Join(lines)) == lines
  {
    if |lines| == 1 {
      SplitNoNewline(lines[0]);
    } else {
      SplitJoin(lines[1..]);
      SplitAfterNewline(lines[0], Join(lines[1..]));
      assert lines == [lines[0]] + lines[1..];
    }
  }

  lemma {:induction false} SplitNoNewline(s: string)
    requires '\n' !in s
    ensures Split(s) == [s]
  {
    if |s| > 0 {
      assert '\n' !in s[1..];
      SplitNoNewline(s[1..]);
      assert s == [s[0]] + s[1..];
    }
  }

  lemma {:induction false} SplitAfterNewline(line: string, rest: string)
    requires '\n' !in line
    ensures Split(line + "\n" + rest) == [line] + Split(rest)
  {
    if |line| == 0 {
      assert line + "\n" + rest == ['\n'] + rest;
      assert (['\n'] + rest)[1..] == rest;
    } else {
      var whole := line + "\n" + rest;
      assert whole[1..] == line[1..] + "\n" + rest;
      assert '\n' !in line[1..];
      SplitAfterNewline(line[1..], rest);
      assert line == [line[0]] + line[1..];
    }
  }

  // ---------------------------------------------------------------------------
  // `s.trim()`: strip leading and trailing white space and line terminators.

  /** The characters String.prototype.trim removes: white space (including every space separator) and line terminators. */
  predicate IsWhitespace(c: char)
  {
    || c == '\t' || c == '\n' || c == '\U{B}' || c == '\U{C}' || c == '\r' || c == ' '
    || c == '\U{A0}' || c == '\U{1680}' || ('\U{2000}' <= c <= '\U{200A}')
    || c == '\U{2028}' || c == '\U{2029}' || c == '\U{202F}' || c == '\U{205F}'
    || c == '\U{3000}' || c == '\U{FEFF}'
  }

  predicate Blank(s: string)
  {
    forall k :: 0 <= k < |s| ==> IsWhitespace(s[k])
  }

  function TrimStart(s: string): (r: string)
    ensures |r| <= |s| && r == s[|s| - |r|..]
    ensures forall k :: 0 <= k < |s| - |r| ==> IsWhitespace(s[k])
    ensures |r| > 0 ==> !IsWhitespace(r[0])
  {
    if |s| > 0 && IsWhitespace(s[0]) then
      var r := TrimStart(s[1..]);
      assert forall k :: 1 <= k < |s| ==> s[k] == s[1..][k - 1];
      r
    else s
  }

  function TrimEnd(s: string): (r: string)
    ensures |r| <= |s| && r == s[..|r|]
    ensures forall k :: |r| <= k < |s| ==> IsWhitespace(s[k])
    ensures |r| > 0 ==> !IsWhitespace(r[|r| - 1])
  {
    if |s| > 0 && IsWhitespace(s[|s| - 1]) then
      var r := TrimEnd(s[..|s| - 1]);
      r
    else s
  }

  /** No longer than the text, and neither ending of a non-empty result is white space. */
  function Trim(s: string): (r: string)
    ensures |r| <= |s|
    ensures |r| > 0 ==> !IsWhitespace(r[0]) && !IsWhitespace(r[|r| - 1])
  {
    TrimStart(TrimEnd(s))
  }

  /** A line trims to the empty string exactly when every character of it is white space. */
  lemma TrimEmptyIffBlank(s: string)
    ensures Trim(s) == "" <==> Blank(s)
  {
  }

  // ---------------------------------------------------------------------------
  // The subject list.

  /** `lines.filter(s => s.trim() !== '')`: the lines that are not blank, untrimmed and in order. */
  function KeepNonBlank(lines: seq<string>): (kept: seq<string>)
    ensures forall l :: l in kept <==> l in lines && Trim(l) != ""
  {
    if |lines| == 0 then []
    else if Trim(lines[0]) != "" then [lines[0]] + KeepNonBlank(lines[1..])
    else KeepNonBlank(lines[1..])
  }

  /** Filtering keeps the order of the lines: filtering a concatenation concatenates the filtered parts. */
  lemma {:induction false} KeepNonBlankConcat(a: seq<string>, b: seq<string>)
    ensures KeepNonBlank(a + b) == KeepNonBlank(a) + KeepNonBlank(b)
  {
    if |a| > 0 {
      assert (a + b)[1..] == a[1..] + b;
      KeepNonBlankConcat(a[1..], b);
    } else {
      assert a + b == b;
    }
  }

  /** The subject list sent with the request: whole lines of the text, none of them blank. */
  function SubjectLines(text: string): (subjects: seq<string>)
    ensures forall l :: l in subjects ==> l in Split(text) && '\n' !in l && Trim(l) != ""
  {
    KeepNonBlank(Split(text))
  }

  /**
    Each subject is one whole line of the text, exactly as typed (surrounding
    spaces included), holds no newline and is not all white space; and every
    line with a non-blank character is a subject.
  */
  lemma SubjectLinesAreNonBlankLines(text: string)
    ensures forall l :: l in SubjectLines(text) ==> l in Split(text) && '\n' !in l && !Blank(l)
    ensures forall l :: l in Split(text) && !Blank(l) ==> l in SubjectLines(text)
  {
    forall l | l in Split(text) ensures Trim(l) != "" <==> !Blank(l) {
      TrimEmptyIffBlank(l);
    }
  }

  const DefaultGoal: string := "Aprovação no Concurso do Banco do Brasil"
  /** The four subjects the form starts with. */
  const DefaultSubjectList: seq<string> :=
    ["Língua Portuguesa", "Raciocínio Lógico", "Conhecimentos Bancários", "Informática"]

  /** The initial text of the subject box: the default subjects, one per line. */
  const DefaultSubjects: string := Join(DefaultSubjectList)
  const DefaultHoursPerWeek: int := 15
  const DefaultDurationInWeeks: int := 8

  /** The durations the picker offers. */
  const DurationOptions: set<int> := {4, 8, 12, 16}

  /** Lines none of which is blank all survive the filter, in order. */
  lemma {:induction false} KeepNonBlankKeepsAll(lines: seq<string>)
    requires forall k :: 0 <= k < |lines| ==> !Blank(lines[k])
    ensures KeepNonBlank(lines) == lines
  {
    if |lines| > 0 {
      TrimEmptyIffBlank(lines[0]);
      KeepNonBlankKeepsAll(lines[1..]);
    }
  }

  /** Subjects typed one per line, none blank, come back exactly as typed. */
  lemma SubjectLinesOfJoin(lines: seq<string>)
    requires |lines| >= 1
    requires forall k :: 0 <= k < |lines| ==> '\n' !in lines[k] && !Blank(lines[k])
    ensures SubjectLines(Join(lines)) == lines
  {
    SplitJoin(lines);
    KeepNonBlankKeepsAll(lines);
  }

  /** The default subject text yields the four default subjects. */
  lemma DefaultSubjectsAreFour()
    ensures SubjectLines(DefaultSubjects) == DefaultSubjectList
  {
    var lines := DefaultSubjectList;
    assert !Blank(lines[0]) && !Blank(lines[1]) && !Blank(lines[2]) && !Blank(lines[3]) by {
      assert !IsWhitespace(lines[0][0]) && !IsWhitespace(lines[1][0]);
      assert !IsWhitespace(lines[2][0]) && !IsWhitespace(lines[3][0]);
    }
    SubjectLinesOfJoin(lines);
  }

  /** Two blank lines leave no subject, so such a submission is refused. */
  lemma BlankLinesLeaveNoSubject()
    ensures SubjectLines("  \n") == []
  {
    var lines := ["  ", ""];
    assert "  \n" == Join(lines);
    SplitJoin(lines);
    TrimEmptyIffBlank("  ");
    TrimEmptyIffBlank("");
  }

  class StudyPlanForm {
    var goal: string
    var subjects: string
    var hoursPerWeek: int
    var durationInWeeks: int

    constructor ()
      ensures goal == DefaultGoal && subjects == DefaultSubjects
      ensures hoursPerWeek == DefaultHoursPerWeek && durationInWeeks == DefaultDurationInWeeks
      ensures durationInWeeks in DurationOptions
    {
      goal := DefaultGoal;
      subjects := DefaultSubjects;
      hoursPerWeek := DefaultHoursPerWeek;
      durationInWeeks := DefaultDurationInWeeks;
    }

    method SetGoal(value: string)
      modifies this`goal
      ensures goal == value
    {
      goal := value;
    }

    method SetSubjects(value: string)
      modifies this`subjects
      ensures subjects == value
    {
      subjects := value;
    }

    /** The number input's value, already converted to a number. */
    method SetHoursPerWeek(value: int)
      modifies this`hoursPerWeek
      ensures hoursPerWeek == value
    {
      hoursPerWeek := value;
    }

    /** The select offers only the four durations. */
    method SetDurationInWeeks(value: int)
      requires value in DurationOptions
      modifies this`durationInWeeks
      ensures durationInWeeks == value
    {
      durationInWeeks := value;
    }

    /**
      handleSubmit: None when no subject line survives (the alert, and no
      request); otherwise the request with the goal, the kept subject lines,
      and the hours and duration as they are.
    */
    method Submit() returns (request: Option<StudyPlanSettings>)
      ensures request.None? <==> SubjectLines(subjects) == []
      ensures request.Some? ==> request.value.subjects == SubjectLines(subjects) && |request.value.subjects| > 0
      ensures request.Some? ==> request.value.goal == goal
                                && request.value.hoursPerWeek == hoursPerWeek
                                && request.value.durationInWeeks == durationInWeeks
    {
      var subjectsArray := KeepNonBlank(Split(subjects));
      if |subjectsArray| == 0 {
        return None;
      }
      request := Some(StudyPlanSettings(goal, subjectsArray, hoursPerWeek, durationInWeeks));
    }
  }
}
