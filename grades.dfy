/**
 * One row of the grade dataset: an offering of a course with its fourteen
 * grade-bucket counts, the enrolment derived from them and the GPA points
 * computed under the fixed grade-to-points table.
 */
module Grades {

  /** The grade buckets, one column each in the dataset. */
  datatype Grade = APlus | A | AMinus | BPlus | B | BMinus | CPlus | C | CMinus | DPlus | D | DMinus | F | W

  /** The bucket columns summed into the enrolment, in the dataset's column order. */
  const AllGrades: seq<Grade> := [APlus, A, AMinus, BPlus, B, BMinus, CPlus, C, CMinus, DPlus, D, DMinus, F, W]

  /** One offering (section in one term) of a course; counts are non-negative. */
  datatype GradeRecord = GradeRecord(
    subject: string, number: int, title: string,
    aPlus: nat, a: nat, aMinus: nat,
    bPlus: nat, b: nat, bMinus: nat,
    cPlus: nat, c: nat, cMinus: nat,
    dPlus: nat, d: nat, dMinus: nat,
    f: nat, w: nat)

  /** The value of one bucket column of a row. */
  function Count(r: GradeRecord, g: Grade): nat
  {
    match g
    case APlus => r.aPlus
    case A => r.a
    case AMinus => r.aMinus
    case BPlus => r.bPlus
    case B => r.b
    case BMinus => r.bMinus
    case CPlus => r.cPlus
    case C => r.c
    case CMinus => r.cMinus
    case DPlus => r.dPlus
    case D => r.d
    case DMinus => r.dMinus
    case F => r.f
    case W => r.w
  }

  /** GPA points earned by one student with grade g. */
  function Weight(g: Grade): (w: real)
    ensures 0.0 <= w <= 4.0
    ensures w == 4.0 <==> g == APlus || g == A
    ensures w == 0.0 <==> g == F || g == W
  {
    match g
    case APlus => 4.0
    case A => 4.0
    case AMinus => 3.66
    case BPlus => 3.33
    case B => 3.0
    case BMinus => 2.66
    case CPlus => 2.33
    case C => 2.0
    case CMinus => 1.66
    case DPlus => 1.33
    case D => 1.0
    case DMinus => 0.66
    case F => 0.0
    case W => 0.0
  }

  /** Sum of the bucket columns AllGrades[i..] of a row. */
  function SumCounts(r: GradeRecord, i: nat): nat
    decreases |AllGrades| - i
  {
    if i >= |AllGrades| then 0 else Count(r, AllGrades[i]) + SumCounts(r, i + 1)
  }

  /** Weighted sum of the bucket columns AllGrades[i..] of a row. */
  function WeightedSum(r: GradeRecord, i: nat): real
    decreases |AllGrades| - i
  {
    if i >= |AllGrades| then 0.0 else Weight(AllGrades[i]) * Count(r, AllGrades[i]) as real + WeightedSum(r, i + 1)
  }

  /** The `n_students` column: the sum over every bucket, withdrawals included. */
  function NStudents(r: GradeRecord): nat
  {
    SumCounts(r, 0)
  }

  /** The `gpa_points` column, as a specification: every bucket times its weight. */
  function Points(r: GradeRecord): real
  {
    WeightedSum(r, 0)
  }

  /** Students with a top grade (A+ or A) in a row. */
  function TopGrades(r: GradeRecord): nat
  {
    r.aPlus + r.a
  }

  /** Enrolment is the plain sum of the fourteen bucket columns, W included. */
  lemma NStudentsIsBucketSum(r: GradeRecord)
    ensures NStudents(r) == r.aPlus + r.a + r.aMinus + r.bPlus + r.b + r.bMinus + r.cPlus + r.c
                            + r.cMinus + r.dPlus + r.d + r.dMinus + r.f + r.w
  {
    assert SumCounts(r, 13) == r.w + SumCounts(r, 14);
    assert SumCounts(r, 12) == r.f + SumCounts(r, 13);
    assert SumCounts(r, 11) == r.dMinus + SumCounts(r, 12);
    assert SumCounts(r, 10) == r.d + SumCounts(r, 11);
    assert SumCounts(r, 9) == r.dPlus + SumCounts(r, 10);
    assert SumCounts(r, 8) == r.cMinus + SumCounts(r, 9);
    assert SumCounts(r, 7) == r.c + SumCounts(r, 8);
    assert SumCounts(r, 6) == r.cPlus + SumCounts(r, 7);
    assert SumCounts(r, 5) == r.bMinus + SumCounts(r, 6);
    assert SumCounts(r, 4) == r.b + SumCounts(r, 5);
    assert SumCounts(r, 3) == r.bPlus + SumCounts(r, 4);
    assert SumCounts(r, 2) == r.aMinus + SumCounts(r, 3);
    assert SumCounts(r, 1) == r.a + SumCounts(r, 2);
    assert SumCounts(r, 0) == r.aPlus + SumCounts(r, 1);
  }

  /** The weighted sum written out bucket by bucket, with F and W contributing nothing. */
  lemma PointsIsWeightedBuckets(r: GradeRecord)
    ensures Points(r) == (r.aPlus + r.a) as real * 4.0 + r.aMinus as real * 3.66 + r.bPlus as real * 3.33
                         + r.b as real * 3.0 + r.bMinus as real * 2.66 + r.cPlus as real * 2.33
                         + r.c as real * 2.0 + r.cMinus as real * 1.66 + r.dPlus as real * 1.33
                         + r.d as real * 1.0 + r.dMinus as real * 0.66
  {
    assert WeightedSum(r, 13) == 0.0 * r.w as real + WeightedSum(r, 14);
    assert WeightedSum(r, 12) == 0.0 * r.f as real + WeightedSum(r, 13);
    assert WeightedSum(r, 11) == 0.66 * r.dMinus as real + WeightedSum(r, 12);
    assert WeightedSum(r, 10) == 1.0 * r.d as real + WeightedSum(r, 11);
    assert WeightedSum(r, 9) == 1.33 * r.dPlus as real + WeightedSum(r, 10);
    assert WeightedSum(r, 8) == 1.66 * r.cMinus as real + WeightedSum(r, 9);
    assert WeightedSum(r, 7) == 2.0 * r.c as real + WeightedSum(r, 8);
    assert WeightedSum(r, 6) == 2.33 * r.cPlus as real + WeightedSum(r, 7);
    assert WeightedSum(r, 5) == 2.66 * r.bMinus as real + WeightedSum(r, 6);
    assert WeightedSum(r, 4) == 3.0 * r.b as real + WeightedSum(r, 5);
    assert WeightedSum(r, 3) == 3.33 * r.bPlus as real + WeightedSum(r, 4);
    assert WeightedSum(r, 2) == 3.66 * r.aMinus as real + WeightedSum(r, 3);
    assert WeightedSum(r, 1) == 4.0 * r.a as real + WeightedSum(r, 2);
    assert WeightedSum(r, 0) == 4.0 * r.aPlus as real + WeightedSum(r, 1);
  }

  /** Each bucket's points lie between zero and four per student. */
  lemma {:induction false} WeightedSumBounds(r: GradeRecord, i: nat)
    ensures 0.0 <= WeightedSum(r, i) <= 4.0 * SumCounts(r, i) as real
    decreases |AllGrades| - i
  {
    if i < |AllGrades| {
      WeightedSumBounds(r, i + 1);
      var n := Count(r, AllGrades[i]) as real;
      assert 0.0 <= Weight(AllGrades[i]) * n <= 4.0 * n;
    }
  }

  /** 0 <= gpa_points <= 4 * n_students; in particular an empty row earns no points. */
  lemma PointsBounds(r: GradeRecord)
    ensures 0.0 <= Points(r) <= 4.0 * NStudents(r) as real
    ensures NStudents(r) == 0 ==> Points(r) == 0.0
  {
    WeightedSumBounds(r, 0);
  }

  /** The top-grade students are among the enrolled ones. */
  lemma TopGradesBound(r: GradeRecord)
    ensures TopGrades(r) <= NStudents(r)
  {
    NStudentsIsBucketSum(r);
  }

  /** The `gpa` function of the dashboard: accumulates the points bucket by bucket. */
  method GpaPoints(r: GradeRecord) returns (points: real)
    ensures points == Points(r)
  {
    points := 0.0;
    points := points + (r.aPlus + r.a) as real * 4.0;
    points := points + r.aMinus as real * 3.66;
    points := points + r.bPlus as real * 3.33;
    points := points + r.b as real * 3.0;
    points := points + r.bMinus as real * 2.66;
    points := points + r.cPlus as real * 2.33;
    points := points + r.c as real * 2.0;
    points := points + r.cMinus as real * 1.66;
    points := points + r.dPlus as real * 1.33;
    points := points + r.d as real * 1.0;
    points := points + r.dMinus as real * 0.66;
    PointsIsWeightedBuckets(r);
  }

  /** A row with ten A's and five B's has 15 students and 55 points. */
  lemma TenAFiveB(subject: string, number: int, title: string)
    ensures var r := GradeRecord(subject, number, title, 0, 10, 0, 0, 5, 0, 0, 0, 0, 0, 0, 0, 0, 0);
            NStudents(r) == 15 && Points(r) == 55.0
  {
    var r := GradeRecord(subject, number, title, 0, 10, 0, 0, 5, 0, 0, 0, 0, 0, 0, 0, 0, 0);
    NStudentsIsBucketSum(r);
    PointsIsWeightedBuckets(r);
  }

  /** A row with five A's and five F's has 10 students, 5 of them top grades, and 20 points. */
  lemma FiveAFiveF(subject: string, number: int, title: string)
    ensures var r := GradeRecord(subject, number, title, 0, 5, 0, 0, 0, 0, 0, 0, 0, 0, 0, 0, 5, 0);
            NStudents(r) == 10 && TopGrades(r) == 5 && Points(r) == 20.0
  {
    var r := GradeRecord(subject, number, title, 0, 5, 0, 0, 0, 0, 0, 0, 0, 0, 0, 0, 5, 0);
    NStudentsIsBucketSum(r);
    PointsIsWeightedBuckets(r);
  }
}
