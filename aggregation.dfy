/**
 * Per-course aggregation: rows are grouped by (Subject, Number, Course Title);
 * each group sums gpa_points, n_students and the A+/A counts and counts its
 * offerings, and the derived columns (Average GPA, % A+/A, Average Students
 * Per Class, Course) are computed from those sums.
 *
 * `Group` folds the rows into groups one row at a time; `RowsWith` and the
 * `Sum...` functions are the reference definition it is proved against.
 */
module Aggregation {
  import opened Wrappers
  import opened Grades
  import opened Labels

  /** The grouping key of a row. */
  datatype Key = Key(subject: string, number: int, title: string)

  function KeyOf(r: GradeRecord): Key
  {
    Key(r.subject, r.number, r.title)
  }

  /** The group sums of one course: gpa_points, n_students, A+ plus A, and the offering count. */
  datatype Totals = Totals(key: Key, gpaPoints: real, nStudents: nat, n4s: nat, nClasses: nat)

  /** One course row of the summary table. `None` is the NaN of a 0/0 ratio. */
  datatype Summary = Summary(
    key: Key,
    gpaPoints: real,
    nStudents: nat,
    averageGpa: Option<real>,
    nClasses: nat,
    n4s: nat,
    pctTop: Option<real>,
    avgPerClass: Option<real>,
    course: string)

  // ---------------------------------------------------------------------------
  // Reference definition: the rows of one key and their sums.
  // ---------------------------------------------------------------------------

  /** The rows sharing key k, in their original order. */
  function RowsWith(rows: seq<GradeRecord>, k: Key): seq<GradeRecord>
  {
    if rows == [] then []
    else RowsWith(rows[..|rows| - 1], k) + (if KeyOf(rows[|rows| - 1]) == k then [rows[|rows| - 1]] else [])
  }

  /** RowsWith keeps exactly the rows whose key is k. */
  lemma {:induction false} RowsWithMembers(rows: seq<GradeRecord>, k: Key)
    ensures |RowsWith(rows, k)| <= |rows|
    ensures forall x :: x in RowsWith(rows, k) <==> x in rows && KeyOf(x) == k
  {
    if rows != [] {
      var init, last := rows[..|rows| - 1], rows[|rows| - 1];
      assert rows == init + [last];
      RowsWithMembers(init, k);
    }
  }

  function SumPoints(rows: seq<GradeRecord>): real
  {
    if rows == [] then 0.0 else SumPoints(rows[..|rows| - 1]) + Points(rows[|rows| - 1])
  }

  function SumStudents(rows: seq<GradeRecord>): nat
  {
    if rows == [] then 0 else SumStudents(rows[..|rows| - 1]) + NStudents(rows[|rows| - 1])
  }

  function SumTop(rows: seq<GradeRecord>): nat
  {
    if rows == [] then 0 else SumTop(rows[..|rows| - 1]) + TopGrades(rows[|rows| - 1])
  }

  /** What the group of key k must hold: the sums over exactly the rows with that key. */
  function Expected(rows: seq<GradeRecord>, k: Key): Totals
  {
    var rs := RowsWith(rows, k);
    Totals(k, SumPoints(rs), SumStudents(rs), SumTop(rs), |rs|)
  }

  // ---------------------------------------------------------------------------
  // The fold.
  // ---------------------------------------------------------------------------

  function Single(r: GradeRecord): Totals
  {
    Totals(KeyOf(r), Points(r), NStudents(r), TopGrades(r), 1)
  }

  function AddRow(t: Totals, r: GradeRecord): Totals
  {
    Totals(t.key, t.gpaPoints + Points(r), t.nStudents + NStudents(r), t.n4s + TopGrades(r), t.nClasses + 1)
  }

  /** Adds a row to the group of its key, opening a new group at the end when there is none. */
  function Insert(gs: seq<Totals>, r: GradeRecord): seq<Totals>
  {
    if gs == [] then [Single(r)]
    else if gs[0].key == KeyOf(r) then [AddRow(gs[0], r)] + gs[1..]
    else [gs[0]] + Insert(gs[1..], r)
  }

  /** The groupby sums, one group per distinct key, in order of first appearance. */
  function Group(rows: seq<GradeRecord>): seq<Totals>
  {
    if rows == [] then [] else Insert(Group(rows[..|rows| - 1]), rows[|rows| - 1])
  }

  function KeySet(gs: seq<Totals>): set<Key>
  {
    if gs == [] then {} else {gs[0].key} + KeySet(gs[1..])
  }

  predicate DistinctKeys(gs: seq<Totals>)
  {
    gs == [] || (gs[0].key !in KeySet(gs[1..]) && DistinctKeys(gs[1..]))
  }

  /** The first group with key k. */
  function Find(gs: seq<Totals>, k: Key): (t: Option<Totals>)
    ensures t.Some? <==> k in KeySet(gs)
    ensures t.Some? ==> t.value.key == k && t.value in gs
  {
    if gs == [] then None else if gs[0].key == k then Some(gs[0]) else Find(gs[1..], k)
  }

  // ---------------------------------------------------------------------------
  // Derived columns.
  // ---------------------------------------------------------------------------

  /** A quotient as pandas computes it; `None` is the NaN of 0/0, the only zero-denominator case a group reaches. */
  function Ratio(num: real, den: nat): (q: Option<real>)
    ensures q.Some? <==> den > 0
    ensures q.Some? ==> q.value * den as real == num
  {
    if den == 0 then None else Some(num / den as real)
  }

  /** 100 times a ratio of counts; `None` when the denominator is zero. */
  function Percent(num: nat, den: nat): (p: Option<real>)
    ensures p.Some? <==> den > 0
    ensures p.Some? ==> p.value * den as real == 100.0 * num as real
  {
    if den == 0 then None else Some(num as real / den as real * 100.0)
  }

  /** The derived columns of one group. */
  function Summarize(t: Totals): Summary
  {
    Summary(
      t.key, t.gpaPoints, t.nStudents,
      Ratio(t.gpaPoints, t.nStudents),
      t.nClasses, t.n4s,
      Percent(t.n4s, t.nStudents),
      Ratio(t.nStudents as real, t.nClasses),
      Label(t.key.subject, t.key.number, t.key.title))
  }

  function SummarizeAll(gs: seq<Totals>): (table: seq<Summary>)
    ensures |table| == |gs|
    ensures forall i :: 0 <= i < |gs| ==> table[i] == Summarize(gs[i])
  {
    if gs == [] then [] else [Summarize(gs[0])] + SummarizeAll(gs[1..])
  }

  /** The summary table `gpa_df`, one row per course. */
  function Aggregate(rows: seq<GradeRecord>): seq<Summary>
  {
    SummarizeAll(Group(rows))
  }

  // ---------------------------------------------------------------------------
  // Totals over a sequence of groups or summaries.
  // ---------------------------------------------------------------------------

  function GroupPoints(gs: seq<Totals>): real
  {
    if gs == [] then 0.0 else gs[0].gpaPoints + GroupPoints(gs[1..])
  }

  function GroupStudents(gs: seq<Totals>): nat
  {
    if gs == [] then 0 else gs[0].nStudents + GroupStudents(gs[1..])
  }

  function GroupClasses(gs: seq<Totals>): nat
  {
    if gs == [] then 0 else gs[0].nClasses + GroupClasses(gs[1..])
  }

  function TablePoints(table: seq<Summary>): real
  {
    if table == [] then 0.0 else table[0].gpaPoints + TablePoints(table[1..])
  }

  function TableStudents(table: seq<Summary>): nat
  {
    if table == [] then 0 else table[0].nStudents + TableStudents(table[1..])
  }

  function TableClasses(table: seq<Summary>): nat
  {
    if table == [] then 0 else table[0].nClasses + TableClasses(table[1..])
  }

  // ---------------------------------------------------------------------------
  // The fold agrees with the reference definition.
  // ---------------------------------------------------------------------------

  lemma SumsSnoc(rs: seq<GradeRecord>, x: GradeRecord)
    ensures SumPoints(rs + [x]) == SumPoints(rs) + Points(x)
    ensures SumStudents(rs + [x]) == SumStudents(rs) + NStudents(x)
    ensures SumTop(rs + [x]) == SumTop(rs) + TopGrades(x)
  {
    assert (rs + [x])[..|rs|] == rs;
  }

  /** Inserting a row changes the group of its key only: opened by it, or extended by it. */
  lemma {:induction false} InsertFind(gs: seq<Totals>, r: GradeRecord, k: Key)
    ensures Find(Insert(gs, r), k) ==
      if k != KeyOf(r) then Find(gs, k)
      else if Find(gs, k).None? then Some(Single(r))
      else Some(AddRow(Find(gs, k).value, r))
  {
    if gs != [] && gs[0].key != KeyOf(r) {
      InsertFind(gs[1..], r, k);
    }
  }

  lemma {:induction false} InsertKeys(gs: seq<Totals>, r: GradeRecord)
    ensures KeySet(Insert(gs, r)) == KeySet(gs) + {KeyOf(r)}
    ensures DistinctKeys(gs) ==> DistinctKeys(Insert(gs, r))
  {
    if gs != [] {
      if gs[0].key == KeyOf(r) {
        assert ([AddRow(gs[0], r)] + gs[1..])[1..] == gs[1..];
      } else {
        InsertKeys(gs[1..], r);
        assert ([gs[0]] + Insert(gs[1..], r))[1..] == Insert(gs[1..], r);
      }
    }
  }

  lemma {:induction false} InsertTotals(gs: seq<Totals>, r: GradeRecord)
    ensures GroupPoints(Insert(gs, r)) == GroupPoints(gs) + Points(r)
    ensures GroupStudents(Insert(gs, r)) == GroupStudents(gs) + NStudents(r)
    ensures GroupClasses(Insert(gs, r)) == GroupClasses(gs) + 1
  {
    if gs == [] {
      assert [Single(r)][1..] == [];
    } else if gs[0].key == KeyOf(r) {
      assert ([AddRow(gs[0], r)] + gs[1..])[1..] == gs[1..];
    } else {
      InsertTotals(gs[1..], r);
      assert ([gs[0]] + Insert(gs[1..], r))[1..] == Insert(gs[1..], r);
    }
  }

  lemma RowsWithSnoc(rows: seq<GradeRecord>, x: GradeRecord, k: Key)
    ensures RowsWith(rows + [x], k) == RowsWith(rows, k) + (if KeyOf(x) == k then [x] else [])
  {
    assert (rows + [x])[..|rows|] == rows;
  }

  /** A row of another key leaves the expected group of k as it was. */
  lemma ExpectedSnocOther(rows: seq<GradeRecord>, x: GradeRecord, k: Key)
    requires KeyOf(x) != k
    ensures RowsWith(rows + [x], k) == RowsWith(rows, k)
    ensures Expected(rows + [x], k) == Expected(rows, k)
  {
    RowsWithSnoc(rows, x, k);
    assert RowsWith(rows, k) + [] == RowsWith(rows, k);
  }

  /** A row of key k adds its points, students, top grades and one offering to the expected group. */
  lemma ExpectedSnocSame(rows: seq<GradeRecord>, x: GradeRecord)
    ensures var k := KeyOf(x);
            var rs := RowsWith(rows, k);
            && RowsWith(rows + [x], k) == rs + [x]
            && Expected(rows + [x], k) == Totals(k, SumPoints(rs) + Points(x), SumStudents(rs) + NStudents(x),
                                                 SumTop(rs) + TopGrades(x), |rs| + 1)
  {
    var k, rs := KeyOf(x), RowsWith(rows, KeyOf(x));
    RowsWithSnoc(rows, x, k);
    var rs' := RowsWith(rows + [x], k);
    assert rs' == rs + [x];
    SumsSnoc(rs, x);
    assert Expected(rows + [x], k) == Totals(k, SumPoints(rs'), SumStudents(rs'), SumTop(rs'), |rs'|);
  }

  /** One step of GroupFind: appending a row keeps the fold in agreement with the reference. */
  lemma GroupFindStep(init: seq<GradeRecord>, last: GradeRecord, k: Key)
    requires Find(Group(init), k) == if RowsWith(init, k) == [] then None else Some(Expected(init, k))
    ensures var rows := init + [last];
            Find(Group(rows), k) == if RowsWith(rows, k) == [] then None else Some(Expected(rows, k))
  {
    var rows := init + [last];
    assert rows[..|rows| - 1] == init;
    assert Group(rows) == Insert(Group(init), last);
    InsertFind(Group(init), last, k);
    if KeyOf(last) != k {
      ExpectedSnocOther(init, last, k);
    } else if RowsWith(init, k) == [] {
      GroupFindOpen(init, last);
    } else {
      GroupFindExtend(init, last);
    }
  }

  lemma GroupFindOpen(init: seq<GradeRecord>, last: GradeRecord)
    requires RowsWith(init, KeyOf(last)) == []
    ensures RowsWith(init + [last], KeyOf(last)) != []
    ensures Expected(init + [last], KeyOf(last)) == Single(last)
  {
    ExpectedSnocSame(init, last);
  }

  lemma GroupFindExtend(init: seq<GradeRecord>, last: GradeRecord)
    requires RowsWith(init, KeyOf(last)) != []
    ensures RowsWith(init + [last], KeyOf(last)) != []
    ensures Expected(init + [last], KeyOf(last)) == AddRow(Expected(init, KeyOf(last)), last)
  {
    var k, rs := KeyOf(last), RowsWith(init, KeyOf(last));
    ExpectedSnocSame(init, last);
    var t := Totals(k, SumPoints(rs), SumStudents(rs), SumTop(rs), |rs|);
    assert Expected(init, k) == t;
    assert AddRow(t, last) == Totals(k, SumPoints(rs) + Points(last), SumStudents(rs) + NStudents(last),
                                     SumTop(rs) + TopGrades(last), |rs| + 1);
  }

  /** Each key's group holds the sums over exactly the rows with that key; keys without rows have no group. */
  lemma {:induction false} GroupFind(rows: seq<GradeRecord>, k: Key)
    ensures Find(Group(rows), k) == if RowsWith(rows, k) == [] then None else Some(Expected(rows, k))
  {
    if rows != [] {
      var init, last := rows[..|rows| - 1], rows[|rows| - 1];
      assert rows == init + [last];
      GroupFind(init, k);
      GroupFindStep(init, last, k);
    }
  }

  lemma {:induction false} GroupDistinct(rows: seq<GradeRecord>)
    ensures DistinctKeys(Group(rows))
  {
    if rows != [] {
      GroupDistinct(rows[..|rows| - 1]);
      InsertKeys(Group(rows[..|rows| - 1]), rows[|rows| - 1]);
    }
  }

  lemma {:induction false} FindAt(gs: seq<Totals>, i: nat)
    requires DistinctKeys(gs) && i < |gs|
    ensures Find(gs, gs[i].key) == Some(gs[i])
  {
    if i > 0 {
      FindAt(gs[1..], i - 1);
      assert gs[i] == gs[1..][i - 1];
      assert gs[0].key != gs[i].key;
    }
  }

  lemma {:induction false} DistinctAt(gs: seq<Totals>, i: nat, j: nat)
    requires DistinctKeys(gs) && i < j < |gs|
    ensures gs[i].key != gs[j].key
  {
    if i == 0 {
      FindAt(gs[1..], j - 1);
    } else {
      DistinctAt(gs[1..], i - 1, j - 1);
    }
  }

  lemma {:induction false} GroupTotals(rows: seq<GradeRecord>)
    ensures GroupPoints(Group(rows)) == SumPoints(rows)
    ensures GroupStudents(Group(rows)) == SumStudents(rows)
    ensures GroupClasses(Group(rows)) == |rows|
  {
    if rows != [] {
      GroupTotals(rows[..|rows| - 1]);
      InsertTotals(Group(rows[..|rows| - 1]), rows[|rows| - 1]);
    }
  }

  lemma {:induction false} SummarizeAllTotals(gs: seq<Totals>)
    ensures TablePoints(SummarizeAll(gs)) == GroupPoints(gs)
    ensures TableStudents(SummarizeAll(gs)) == GroupStudents(gs)
    ensures TableClasses(SummarizeAll(gs)) == GroupClasses(gs)
  {
    if gs != [] {
      SummarizeAllTotals(gs[1..]);
      assert SummarizeAll(gs)[1..] == SummarizeAll(gs[1..]);
    }
  }

  /** Points stay within [0, 4] per student over any set of rows; top grades within the enrolment. */
  lemma {:induction false} SumBounds(rs: seq<GradeRecord>)
    ensures 0.0 <= SumPoints(rs) <= 4.0 * SumStudents(rs) as real
    ensures SumTop(rs) <= SumStudents(rs)
  {
    if rs != [] {
      SumBounds(rs[..|rs| - 1]);
      PointsBounds(rs[|rs| - 1]);
      TopGradesBound(rs[|rs| - 1]);
    }
  }

  lemma QuotientBounds(v: real, num: real, den: real, hi: real)
    requires den > 0.0 && v * den == num && 0.0 <= num <= hi * den
    ensures 0.0 <= v <= hi
  {
  }

  // ---------------------------------------------------------------------------
  // Properties of the summary table.
  // ---------------------------------------------------------------------------

  /** Group i is the expected group of its own key, and that key has rows. */
  lemma GroupAt(rows: seq<GradeRecord>, i: nat)
    requires i < |Group(rows)|
    ensures RowsWith(rows, Group(rows)[i].key) != []
    ensures Group(rows)[i] == Expected(rows, Group(rows)[i].key)
  {
    var gs := Group(rows);
    GroupFind(rows, gs[i].key);
    GroupDistinct(rows);
    FindAt(gs, i);
  }

  lemma ExpectedBounds(rows: seq<GradeRecord>, k: Key)
    requires RowsWith(rows, k) != []
    ensures var t := Expected(rows, k);
            0.0 <= t.gpaPoints <= 4.0 * t.nStudents as real && t.n4s <= t.nStudents && t.nClasses >= 1
  {
    SumBounds(RowsWith(rows, k));
  }

  /**
   * Summary row i holds the sums over exactly the rows sharing its key, at
   * least one offering, and the label of that key.
   */
  lemma AggregateIsCourseSums(rows: seq<GradeRecord>, i: nat)
    requires i < |Aggregate(rows)|
    ensures var s := Aggregate(rows)[i];
            var rs := RowsWith(rows, s.key);
            && rs != []
            && s.gpaPoints == SumPoints(rs)
            && s.nStudents == SumStudents(rs)
            && s.n4s == SumTop(rs)
            && s.nClasses == |rs| >= 1
            && s.course == Label(s.key.subject, s.key.number, s.key.title)
  {
    GroupAt(rows, i);
  }

  /** The group of every row's key is somewhere in the fold. */
  lemma GroupCovers(rows: seq<GradeRecord>, r: GradeRecord)
    requires r in rows
    ensures exists i :: 0 <= i < |Group(rows)| && Group(rows)[i].key == KeyOf(r)
  {
    GroupFind(rows, KeyOf(r));
    RowsWithMembers(rows, KeyOf(r));
    assert r in RowsWith(rows, KeyOf(r));
  }

  /** One summary per distinct key: keys are pairwise distinct and every row's key has its summary. */
  lemma AggregateKeys(rows: seq<GradeRecord>)
    ensures forall i, j :: 0 <= i < j < |Aggregate(rows)| ==> Aggregate(rows)[i].key != Aggregate(rows)[j].key
    ensures forall r :: r in rows ==> exists i :: 0 <= i < |Aggregate(rows)| && Aggregate(rows)[i].key == KeyOf(r)
  {
    var gs := Group(rows);
    var table := Aggregate(rows);
    GroupDistinct(rows);
    forall i, j | 0 <= i < j < |table|
      ensures table[i].key != table[j].key
    {
      DistinctAt(gs, i, j);
    }
    forall r | r in rows
      ensures exists i :: 0 <= i < |table| && table[i].key == KeyOf(r)
    {
      GroupCovers(rows, r);
      var i :| 0 <= i < |gs| && gs[i].key == KeyOf(r);
      assert table[i].key == KeyOf(r);
    }
  }

  /** Summing over the summary table gives the totals over all rows: nothing is lost or counted twice. */
  lemma AggregateTotals(rows: seq<GradeRecord>)
    ensures TablePoints(Aggregate(rows)) == SumPoints(rows)
    ensures TableStudents(Aggregate(rows)) == SumStudents(rows)
    ensures TableClasses(Aggregate(rows)) == |rows|
  {
    GroupTotals(rows);
    SummarizeAllTotals(Group(rows));
  }

  /**
   * The derived columns of a summary are what the dashboard promises: Average
   * Students Per Class is defined; with no students both other ratios are NaN
   * and the sums they divide are zero; otherwise Average GPA is the points per
   * student and lies in [0, 4], and % A+/A is 100 times the top grades per
   * student and lies in [0, 100].
   */
  ghost predicate RatiosInRange(s: Summary)
  {
    && s.avgPerClass.Some? && s.avgPerClass.value * s.nClasses as real == s.nStudents as real
    && (s.nStudents == 0 ==> s.averageGpa.None? && s.pctTop.None? && s.gpaPoints == 0.0 && s.n4s == 0)
    && (s.nStudents > 0 ==>
          && s.averageGpa.Some? && 0.0 <= s.averageGpa.value <= 4.0
          && s.averageGpa.value * s.nStudents as real == s.gpaPoints
          && s.pctTop.Some? && 0.0 <= s.pctTop.value <= 100.0
          && s.pctTop.value * s.nStudents as real == 100.0 * s.n4s as real)
  }

  /** The derived columns of a group whose sums obey the per-row bounds. */
  lemma SummarizeRatios(t: Totals)
    requires 0.0 <= t.gpaPoints <= 4.0 * t.nStudents as real && t.n4s <= t.nStudents && t.nClasses >= 1
    ensures RatiosInRange(Summarize(t))
  {
    var s := Summarize(t);
    var n := t.nStudents as real;
    if t.nStudents > 0 {
      QuotientBounds(s.averageGpa.value, t.gpaPoints, n, 4.0);
      QuotientBounds(s.pctTop.value, 100.0 * t.n4s as real, n, 100.0);
    }
  }

  /**
   * Average GPA lies in [0, 4] and % A+/A in [0, 100] when the course has
   * students; both are NaN when it has none, and then its points and top
   * counts are zero too (so 0/0, never x/0 with x > 0). Average Students
   * Per Class is always defined.
   */
  lemma AggregateRatios(rows: seq<GradeRecord>, i: nat)
    requires i < |Aggregate(rows)|
    ensures Aggregate(rows)[i].n4s <= Aggregate(rows)[i].nStudents
    ensures RatiosInRange(Aggregate(rows)[i])
  {
    var t := Group(rows)[i];
    GroupAt(rows, i);
    ExpectedBounds(rows, t.key);
    SummarizeRatios(t);
  }

  /** The group sums of the two offerings in the example below. */
  lemma TwoOfferingsGroup(title: string, r1: GradeRecord, r2: GradeRecord)
    requires r1 == GradeRecord("AAS", 100, title, 0, 10, 0, 0, 5, 0, 0, 0, 0, 0, 0, 0, 0, 0)
    requires r2 == GradeRecord("AAS", 100, title, 0, 5, 0, 0, 0, 0, 0, 0, 0, 0, 0, 0, 5, 0)
    ensures Group([r1, r2]) == [Totals(Key("AAS", 100, title), 75.0, 25, 15, 2)]
  {
    TenAFiveB("AAS", 100, title);
    FiveAFiveF("AAS", 100, title);
    var k := Key("AAS", 100, title);
    var t1 := Single(r1);
    assert t1 == Totals(k, 55.0, 15, 10, 1);
    assert [r1, r2][..1] == [r1];
    assert [r1][..0] == [];
    assert Group([r1]) == [t1];
    assert Group([r1, r2]) == Insert([t1], r2) == [AddRow(t1, r2)];
  }

  /**
   * Two offerings of AAS 100, one with A = 10 and B = 5, one with A = 5 and
   * F = 5: 25 students, 55 + 20 = 75 points, Average GPA 3.0, % A+/A 60, two
   * classes of 12.5 students on average, labelled "AAS 100: <title>".
   */
  lemma TwoOfferingsExample(title: string)
    ensures var r1 := GradeRecord("AAS", 100, title, 0, 10, 0, 0, 5, 0, 0, 0, 0, 0, 0, 0, 0, 0);
            var r2 := GradeRecord("AAS", 100, title, 0, 5, 0, 0, 0, 0, 0, 0, 0, 0, 0, 0, 5, 0);
            Aggregate([r1, r2]) == [Summary(Key("AAS", 100, title), 75.0, 25, Some(3.0), 2, 15,
                                             Some(60.0), Some(12.5), "AAS 100: " + title)]
  {
    var r1 := GradeRecord("AAS", 100, title, 0, 10, 0, 0, 5, 0, 0, 0, 0, 0, 0, 0, 0, 0);
    var r2 := GradeRecord("AAS", 100, title, 0, 5, 0, 0, 0, 0, 0, 0, 0, 0, 0, 0, 5, 0);
    TwoOfferingsGroup(title, r1, r2);
    var t := Totals(Key("AAS", 100, title), 75.0, 25, 15, 2);
    assert NatToString(10) == "10";
    assert IntToString(100) == "100";
    assert Summarize(t) == Summary(Key("AAS", 100, title), 75.0, 25, Some(3.0), 2, 15,
                                   Some(60.0), Some(12.5), "AAS 100: " + title);
  }
}
