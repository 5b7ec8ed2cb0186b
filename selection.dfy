/**
 * The `update_figure` callback: keeps the summary rows of one subject whose
 * Average GPA is strictly above the chosen minimum and whose course number
 * lies in the chosen level's range, then projects them to the displayed
 * columns Course, Average GPA and % A+/A.
 */
module Selection {
  import opened Wrappers
  import opened Grades
  import opened Aggregation

  /** The one level value the callback tests for; every other value selects graduate courses. */
  const Undergraduate: string := "Undergraduate"

  /** Undergraduate keeps numbers up to 500; any other level keeps numbers from 400 on. */
  predicate InLevel(level: string, number: int)
  {
    if level == Undergraduate then number <= 500 else number >= 400
  }

  /** A NaN Average GPA compares false against every threshold. */
  predicate AboveThreshold(gpa: Option<real>, minGpa: real)
  {
    gpa.Some? && gpa.value > minGpa
  }

  /** The boolean mask of the callback, for one summary row. */
  predicate Keep(s: Summary, subject: string, level: string, minGpa: real)
  {
    s.key.subject == subject && AboveThreshold(s.averageGpa, minGpa) && InLevel(level, s.key.number)
  }

  /** `filtered_courses`: the rows of the table the mask keeps, in table order. */
  function Filter(table: seq<Summary>, subject: string, level: string, minGpa: real): (kept: seq<Summary>)
    ensures |kept| <= |table|
  {
    if table == [] then []
    else (if Keep(table[0], subject, level, minGpa) then [table[0]] else []) + Filter(table[1..], subject, level, minGpa)
  }

  /** One row of the displayed table. */
  datatype TableRow = TableRow(course: string, averageGpa: Option<real>, pctTop: Option<real>)

  /** `filtered_df_show`: the Course, Average GPA and % A+/A columns of each kept row. */
  function Project(courses: seq<Summary>): (shown: seq<TableRow>)
    ensures |shown| == |courses|
    ensures forall i :: 0 <= i < |courses| ==>
              shown[i] == TableRow(courses[i].course, courses[i].averageGpa, courses[i].pctTop)
  {
    if courses == [] then [] else [TableRow(courses[0].course, courses[0].averageGpa, courses[0].pctTop)] + Project(courses[1..])
  }

  /** What the callback hands to the chart (all columns of the kept rows) and to the table. */
  datatype View = View(courses: seq<Summary>, rows: seq<TableRow>)

  function UpdateFigure(table: seq<Summary>, subject: string, level: string, minGpa: real): View
  {
    var courses := Filter(table, subject, level, minGpa);
    View(courses, Project(courses))
  }

  /** a is b with some elements left out, the rest in the same order. */
  predicate IsSubsequence(a: seq<Summary>, b: seq<Summary>)
  {
    if a == [] then true
    else if b == [] then false
    else (a[0] == b[0] && IsSubsequence(a[1..], b[1..])) || IsSubsequence(a, b[1..])
  }

  // ---------------------------------------------------------------------------
  // Properties of the filter.
  // ---------------------------------------------------------------------------

  /** The result keeps the table's order: it is a subsequence of the table. */
  lemma {:induction false} FilterIsSubsequence(table: seq<Summary>, subject: string, level: string, minGpa: real)
    ensures IsSubsequence(Filter(table, subject, level, minGpa), table)
  {
    if table != [] {
      FilterIsSubsequence(table[1..], subject, level, minGpa);
      var rest := Filter(table[1..], subject, level, minGpa);
      if Keep(table[0], subject, level, minGpa) {
        assert ([table[0]] + rest)[1..] == rest;
      } else {
        assert [] + rest == rest;
      }
    }
  }

  /** A row is in the result exactly when it is in the table and meets all three conditions. */
  lemma {:induction false} FilterMembers(table: seq<Summary>, subject: string, level: string, minGpa: real, s: Summary)
    ensures s in Filter(table, subject, level, minGpa) <==> s in table && Keep(s, subject, level, minGpa)
  {
    if table != [] {
      FilterMembers(table[1..], subject, level, minGpa, s);
      assert table == [table[0]] + table[1..];
    }
  }

  /** Every kept row is of the chosen subject, strictly above the threshold and in the level's range. */
  lemma FilterSound(table: seq<Summary>, subject: string, level: string, minGpa: real)
    ensures forall s :: s in Filter(table, subject, level, minGpa) ==>
              && s.key.subject == subject
              && s.averageGpa.Some? && s.averageGpa.value > minGpa
              && (if level == Undergraduate then s.key.number <= 500 else s.key.number >= 400)
  {
    forall s | s in Filter(table, subject, level, minGpa)
      ensures Keep(s, subject, level, minGpa)
    {
      FilterMembers(table, subject, level, minGpa, s);
    }
  }

  /** A subject that no summary row has selects nothing. */
  lemma UnknownSubjectSelectsNothing(table: seq<Summary>, subject: string, level: string, minGpa: real)
    requires forall s :: s in table ==> s.key.subject != subject
    ensures Filter(table, subject, level, minGpa) == []
  {
    var kept := Filter(table, subject, level, minGpa);
    if kept != [] {
      FilterMembers(table, subject, level, minGpa, kept[0]);
    }
  }

  /** A row whose Average GPA equals the threshold is never kept. */
  lemma ThresholdIsStrict(table: seq<Summary>, subject: string, level: string, s: Summary)
    requires s.averageGpa.Some?
    ensures s !in Filter(table, subject, level, s.averageGpa.value)
  {
    FilterMembers(table, subject, level, s.averageGpa.value, s);
  }

  /** A course without students (NaN Average GPA) is never kept, whatever the selection. */
  lemma NoDataNeverSelected(table: seq<Summary>, subject: string, level: string, minGpa: real, s: Summary)
    requires s.averageGpa.None?
    ensures s !in Filter(table, subject, level, minGpa)
  {
    FilterMembers(table, subject, level, minGpa, s);
  }

  /**
   * On the aggregated table: a course whose offerings all have zero
   * enrolment is not among the selected courses, for every subject, level
   * and threshold.
   */
  lemma ZeroEnrolmentExcluded(rows: seq<GradeRecord>, k: Key, subject: string, level: string, minGpa: real)
    requires forall r :: r in rows && KeyOf(r) == k ==> NStudents(r) == 0
    ensures forall s :: s in Filter(Aggregate(rows), subject, level, minGpa) ==> s.key != k
  {
    var table := Aggregate(rows);
    forall s | s in Filter(table, subject, level, minGpa)
      ensures s.key != k
    {
      FilterMembers(table, subject, level, minGpa, s);
      var i :| 0 <= i < |table| && table[i] == s;
      AggregateIsCourseSums(rows, i);
      AggregateRatios(rows, i);
      if s.key == k {
        RowsWithMembers(rows, k);
        ZeroSum(RowsWith(rows, k));
      }
    }
  }

  lemma {:induction false} ZeroSum(rs: seq<GradeRecord>)
    requires forall r :: r in rs ==> NStudents(r) == 0
    ensures SumStudents(rs) == 0
  {
    if rs != [] {
      assert rs[|rs| - 1] in rs;
      assert forall r :: r in rs[..|rs| - 1] ==> r in rs;
      ZeroSum(rs[..|rs| - 1]);
    }
  }

  /**
   * Courses numbered 400 to 500 are selected under Undergraduate and under
   * every other level value alike; outside that band the two differ.
   */
  lemma LevelsOverlap(table: seq<Summary>, subject: string, level: string, minGpa: real, s: Summary)
    requires level != Undergraduate
    ensures 400 <= s.key.number <= 500 ==>
              (s in Filter(table, subject, Undergraduate, minGpa) <==> s in Filter(table, subject, level, minGpa))
    ensures s.key.number > 500 ==> s !in Filter(table, subject, Undergraduate, minGpa)
    ensures s.key.number < 400 ==> s !in Filter(table, subject, level, minGpa)
  {
    FilterMembers(table, subject, Undergraduate, minGpa, s);
    FilterMembers(table, subject, level, minGpa, s);
  }

  /** A CS 498 course with Average GPA above the threshold shows under both Undergraduate and Graduate. */
  lemma Cs498UnderBothLevels(table: seq<Summary>, minGpa: real, s: Summary)
    requires s in table && s.key.subject == "CS" && s.key.number == 498
    requires s.averageGpa.Some? && s.averageGpa.value > minGpa
    ensures s in Filter(table, "CS", "Undergraduate", minGpa)
    ensures s in Filter(table, "CS", "Graduate", minGpa)
  {
    FilterMembers(table, "CS", "Undergraduate", minGpa, s);
    FilterMembers(table, "CS", "Graduate", minGpa, s);
  }

  /**
   * The displayed table has one row per selected course, in the same order,
   * showing its label, Average GPA above the threshold and % A+/A.
   */
  lemma ShownRows(table: seq<Summary>, subject: string, level: string, minGpa: real)
    ensures var v := UpdateFigure(table, subject, level, minGpa);
            && |v.rows| == |v.courses|
            && IsSubsequence(v.courses, table)
            && forall i :: 0 <= i < |v.rows| ==>
                 && v.rows[i].course == v.courses[i].course
                 && v.rows[i].pctTop == v.courses[i].pctTop
                 && v.rows[i].averageGpa == v.courses[i].averageGpa
                 && AboveThreshold(v.rows[i].averageGpa, minGpa)
  {
    var v := UpdateFigure(table, subject, level, minGpa);
    FilterIsSubsequence(table, subject, level, minGpa);
    forall i | 0 <= i < |v.rows|
      ensures AboveThreshold(v.rows[i].averageGpa, minGpa)
    {
      assert v.courses[i] in v.courses;
      FilterMembers(table, subject, level, minGpa, v.courses[i]);
    }
  }
}
