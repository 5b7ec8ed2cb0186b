# UIUC course GPA dashboard: data pipeline model

This project models the data pipeline behind a single-page dashboard of
historical University of Illinois grade distributions (`app.py`). The pipeline
has three stages:

1. **Per-offering columns.** Each dataset row is one offering of a course.
   It has fourteen grade-bucket counts, A+ to F plus W. From these it gets
   `n_students`, the sum of all fourteen buckets, and `gpa_points`, each
   bucket times its weight. A+ and A weigh 4, A- to D- weigh 3.66 to 0.66,
   and F and W weigh 0.
2. **Per-course aggregation.** Rows are grouped by (Subject, Number,
   Course Title). Each group sums `gpa_points`, `n_students` and the A+/A
   counts, and counts its offerings (`n_classes`). From those sums come
   Average GPA, % A+/A, Average Students Per Class and the `Course` label
   "Subject Number: Title".
3. **Selection.** The `update_figure` callback keeps the summary rows that
   meet three conditions: the subject matches exactly, Average GPA is
   strictly above the chosen minimum, and the course number is in the
   level's range. Undergraduate means at most 500. Any other level value
   means at least 400. The callback then projects the kept rows to Course,
   Average GPA and % A+/A.

Modules, one per stage plus helpers:

- `Wrappers` (`wrappers.dfy`): `Option`. `None` is the NaN that pandas
  produces for 0/0.
- `Grades` (`grades.dfy`): the grade record, the weight table, `n_students`
  and the `gpa` function. `gpa` is a straight-line method that accumulates
  `points := points + …` as the source does. It is proved equal to a
  reference sum over the weight table.
- `Labels` (`labels.dfy`): Python's `str` of an integer and the Course label.
  For subjects without a space, a label parser is proved to be its left
  inverse.
- `Aggregation` (`aggregation.dfy`): the groupby. `Group` folds the rows into
  groups one at a time. It is proved against a reference definition that
  sums over exactly the rows with a given key (`RowsWith`, `Expected`).
  `Summarize` computes the derived columns.
- `Selection` (`selection.dfy`): the mask, the projection, and their
  properties.

Ratios are exact Dafny `real`s. The filter compares the exact Average GPA,
not the value rounded to two decimals (see "Left out").

Worked example: two offerings of AAS 100, one with A=10, B=5 and one with
A=5, F=5. The weights give 10·4 + 5·3 = 55 points for the first and 20 for
the second. The course has 75 points and 25 students, so its Average GPA is
3.0 (`Grades.TenAFiveB`, `Aggregation.TwoOfferingsExample`).

## Model

| member | source | states |
|---|---|---|
| `Grades.Weight` | app.py:21-34 | Every weight is in [0, 4]. A weight is 4 exactly for A+ and A, and 0 exactly for F and W. |
| `Grades.NStudents` | app.py:19 | No contract of its own: the sum over the `grades` column list. `Grades.NStudentsIsBucketSum` gives its closed form, and `Grades.TopGradesBound` bounds the top grades by it. |
| `Grades.Points` | app.py:21-36 | No contract of its own: the `gpa_points` column, a sum over the weight table. `Grades.PointsIsWeightedBuckets`, `Grades.PointsBounds` and `Grades.GpaPoints` specify it. |
| `Grades.NStudentsIsBucketSum` | app.py:17-19 | `n_students` (the sum over the `grades` column list) equals the sum of the fourteen buckets A+ … F and W. So withdrawals count. |
| `Grades.GpaPoints` | app.py:21-34 | The step-by-step `gpa` accumulation returns the weighted sum of every bucket under the grade-to-points table. |
| `Grades.PointsIsWeightedBuckets` | app.py:21-34 | `gpa_points` is (A+ + A)·4 + A-·3.66 + B+·3.33 + B·3 + B-·2.66 + C+·2.33 + C·2 + C-·1.66 + D+·1.33 + D·1 + D-·0.66. F and W add nothing. |
| `Grades.WeightedSumBounds` | app.py:21-34 | Over any tail of a row's bucket list, the weighted sum is between 0 and 4 times the student count. |
| `Grades.PointsBounds` | app.py:21-34 | 0 ≤ `gpa_points` ≤ 4·`n_students`. A row with no students earns 0 points. |
| `Grades.TopGradesBound` | app.py:49 | A row's A+ plus A count is at most its `n_students`. |
| `Grades.TenAFiveB` | app.py:19-34 | A row with A=10 and B=5 has 15 students and 55 points. |
| `Grades.FiveAFiveF` | app.py:19-34 | A row with A=5 and F=5 has 10 students, 5 top grades and 20 points. |
| `Labels.NatToString` | app.py:44 | The decimal rendering of a natural number is nonempty, all digits, and has no leading zero. |
| `Labels.IntToString` | app.py:44 | `str` of an integer is nonempty and starts with '-' exactly when the integer is negative. |
| `Labels.NatRoundTrip` | app.py:44 | Reading back the digits of `str(n)` gives n. |
| `Labels.IntRoundTrip` | app.py:44 | Parsing `str(i)` gives i, for negative numbers too. |
| `Labels.Label` | app.py:43-44 | No contract of its own: the `name` function, applied to each summary row at app.py:53. `Labels.LabelRoundTrip` shows it determines subject, number and title. |
| `Labels.LabelRoundTrip` | app.py:43-44 | When the subject has no space, the label `Subject + ' ' + str(Number) + ': ' + Course Title` parses back to exactly that subject, number and title. So the label loses nothing. The title may contain ": ". |
| `Aggregation.RowsWithMembers` | app.py:46 | The reference group of a key holds exactly the rows with that key, and no more rows than the input. |
| `Aggregation.Ratio` | app.py:47 | A column quotient is defined exactly when the denominator is nonzero. Its value times the denominator is the numerator. |
| `Aggregation.Percent` | app.py:50 | % A+/A is defined exactly when `n_students` > 0. Its value times `n_students` is 100·`n_4s`. |
| `Aggregation.InsertFind` | app.py:46 | Adding a row changes only the group of its key. That group is opened by the row, or extended by its points, students, top grades and one offering. |
| `Aggregation.InsertTotals` | app.py:46-48 | Adding a row raises the total over all groups by that row's points, its students and one offering. |
| `Aggregation.Group` | app.py:46-49 | No contract of its own: the groupby, as a fold of `Insert` over the rows. `Aggregation.GroupFind`, `Aggregation.GroupDistinct`, `Aggregation.GroupAt` and `Aggregation.AggregateKeys` specify it. |
| `Aggregation.GroupFind` | app.py:46-49 | The fold has a group for a key exactly when some row has that key. That group holds the sums of `gpa_points`, `n_students` and A+/A over exactly those rows, and their count. |
| `Aggregation.GroupDistinct` | app.py:46 | The fold never makes two groups with the same (Subject, Number, Course Title). |
| `Aggregation.GroupAt` | app.py:46-49 | Every group is the reference group of its own key, and that key occurs among the rows. |
| `Aggregation.SumBounds` | app.py:46-49 | Over any rows, summed points are between 0 and 4 times summed students, and summed A+/A is at most summed students. |
| `Aggregation.Summarize` | app.py:47-53 | No contract of its own: the derived columns of one group. `Aggregation.SummarizeRatios` specifies them. |
| `Aggregation.Aggregate` | app.py:46-53 | No contract of its own: the summary table `gpa_df`. `Aggregation.AggregateIsCourseSums`, `Aggregation.AggregateKeys`, `Aggregation.AggregateTotals` and `Aggregation.AggregateRatios` specify it. |
| `Aggregation.AggregateIsCourseSums` | app.py:46-53 | Each summary row's `gpa_points`, `n_students` and `n_4s` are the sums over exactly the rows with its key. Its `n_classes` is their number, at least 1. Its Course is the label of its key. |
| `Aggregation.AggregateKeys` | app.py:46 | Summary keys are pairwise distinct, and every row's key has a summary row. |
| `Aggregation.AggregateTotals` | app.py:46-48 | Summed over all summary rows, points, students and offerings equal the totals over all input rows. |
| `Aggregation.SummarizeRatios` | app.py:47-51 | For group sums within the per-row bounds: with students, Average GPA is points per student in [0, 4], and % A+/A is in [0, 100] with value times `n_students` equal to 100·`n_4s`. Without students, both are NaN and points and top count are 0. Average Students Per Class is always n_students / n_classes. |
| `Aggregation.AggregateRatios` | app.py:47-51 | Every summary row satisfies `SummarizeRatios`' bounds and values, including % A+/A times `n_students` equal to 100·`n_4s`, and `n_4s` ≤ `n_students`. |
| `Aggregation.TwoOfferingsGroup` | app.py:46-49 | Two AAS 100 offerings (A=10, B=5 and A=5, F=5) form one group: 75 points, 25 students, 15 top grades, 2 offerings. |
| `Aggregation.TwoOfferingsExample` | app.py:46-53 | The summary of those offerings: Average GPA 3.0, % A+/A 60, 12.5 students per class, label "AAS 100: <title>". |
| `Selection.Filter` | app.py:121-126 | The rows kept by the mask are no more than the table's rows. |
| `Selection.Keep` | app.py:122-126 | No contract of its own: the boolean mask of either branch. `Selection.FilterMembers`, `Selection.ThresholdIsStrict`, `Selection.NoDataNeverSelected` and `Selection.LevelsOverlap` specify it. |
| `Selection.FilterIsSubsequence` | app.py:121-126 | The kept rows are a subsequence of the summary table, in its order. |
| `Selection.FilterMembers` | app.py:121-126 | A row is kept exactly when it is in the table, has the selected subject, has an Average GPA strictly above the threshold, and has a number in the level's range. |
| `Selection.FilterSound` | app.py:121-126 | Every kept row has the exact subject and an Average GPA strictly above the threshold. Under Undergraduate its number is ≤ 500; under any other level it is ≥ 400. |
| `Selection.UnknownSubjectSelectsNothing` | app.py:123 | A subject that no summary row has selects nothing. |
| `Selection.ThresholdIsStrict` | app.py:123 | A row whose Average GPA equals the threshold is not kept. |
| `Selection.NoDataNeverSelected` | app.py:123 | A row with a NaN Average GPA is not kept, whatever the subject, level or threshold. |
| `Selection.ZeroEnrolmentExcluded` | app.py:121-126 | On the aggregated table, a course whose offerings all have zero enrolment is never selected, for any subject, level or threshold. |
| `Selection.LevelsOverlap` | app.py:122-126 | For numbers 400-500, Undergraduate and any other level select the same rows. Above 500 Undergraduate selects nothing. Below 400 the other levels select nothing. |
| `Selection.Cs498UnderBothLevels` | app.py:122-126 | A CS 498 row above the threshold is selected under both Undergraduate and Graduate. |
| `Selection.Project` | app.py:128 | One display row per kept course, in order, holding its Course, Average GPA and % A+/A. |
| `Selection.ShownRows` | app.py:121-128 | The displayed table pairs up with the kept courses, in table order. Each shown row carries its course's label, Average GPA and % A+/A, and its Average GPA is above the threshold. |
| `Selection.UpdateFigure` | app.py:121-128 | No contract of its own: the kept courses and the displayed table of the callback. `Selection.ShownRows` specifies it. |

## Left out

- Loading the CSV from its URL (app.py:15) is left out, because it is network I/O. Rows are a parameter, so missing columns and a failed fetch are not modelled.
- The Dash app, its layout, dropdowns and slider, and the callback wiring (app.py:11-13, 69-119, 150-151) are left out as UI framework code. The callback's three inputs are parameters of `Selection.UpdateFigure`.
- The Plotly scatter figure and its layout (app.py:130-141) are left out. The model returns the kept summary rows, which the figure plots, but not the figure itself.
- `generate_table` (app.py:56-66) is left out because it only builds HTML. It emits at most `max_rows` rows, and the callback passes the number of kept rows, so every kept row is shown.
- The slider marks `marks_array` (app.py:38-41) are UI configuration and are left out. The threshold is any real number.
- Floating-point arithmetic is not modelled: weights and ratios are exact reals, so 3.66 is exactly 3.66.
- `Aggregation.Summarize`: `round(…, 2)` on Average GPA, % A+/A and Average Students Per Class (app.py:47, 50-51) is not modelled. That is pandas' `Series.round`, which scales by 100 and rounds half to even in numpy, on binary floats. The model keeps the exact quotients, and the filter compares the exact Average GPA, not the rounded one.
- `Aggregation.Group`: the model lists groups in order of first appearance, so the order of its groups depends on the order of the rows. pandas sorts group keys instead. The positional alignment of the three separate groupbys (app.py:46-49) relies on that shared sort. The model computes all sums in one grouping, so it does not need three separate groupby results to line up by position. No lemma states that the group sums are independent of row order; `Aggregation.GroupFind` ties each group to the rows with its key.
- pandas drops rows whose key columns are missing. Key values here are always present, so that case is not modelled.
- The aggregation is deterministic because every stage is a Dafny function of its input. No separate lemma states that.
