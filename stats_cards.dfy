/** The eight figure cards of the dashboard. Every period-scoped figure uses
    the strict test `x.periodId === selectedPeriodId`, so with no period
    selected they are all zero. Rates and averages are exact integer
    roundings of the quotients the cards display. */
module StatsCards {
  import opened Wrappers
  import opened Seqs
  import opened Data
  import opened Store
  import opened AcademicAlerts
  import opened AttendanceSummary

  /** `Math.round(n / d)` for n >= 0 and d > 0: the nearest integer, halves
      rounded up. */
  function RoundHalfUp(n: nat, d: nat): (r: nat)
    requires d > 0
    ensures 2 * d * r <= 2 * n + d < 2 * d * r + 2 * d
  {
    (2 * n + d) / (2 * d)
  }

  /** `toFixed(0)` of n / d: the nearest integer, halves rounded away from zero. */
  function RoundHalfAway(n: int, d: nat): (r: int)
    requires d > 0
    ensures n >= 0 ==> r >= 0 && 2 * d * r <= 2 * n + d < 2 * d * r + 2 * d
    ensures n < 0 ==> r <= 0 && 2 * d * (-r) <= 2 * (-n) + d < 2 * d * (-r) + 2 * d
  {
    if n >= 0 then RoundHalfUp(n, d) else -(RoundHalfUp(-n, d) as int)
  }

  /** `enrolledCount`: active enrollments of the period, one per enrollment
      (a student enrolled twice counts twice). */
  function EnrolledCount(enrollments: seq<Enrollment>, selected: Option<string>): (n: nat)
    ensures n == Count(enrollments, (e: Enrollment) => ActiveEnrollment(e, selected))
  {
    |EnrolledStudentIds(enrollments, selected)|
  }

  /** Each further active enrollment of the period adds one, whoever it is
      for. */
  lemma EnrolledCountPerEnrollment(enrollments: seq<Enrollment>, e: Enrollment, selected: Option<string>)
    requires ActiveEnrollment(e, selected)
    ensures EnrolledCount(enrollments + [e], selected) == EnrolledCount(enrollments, selected) + 1
  {
    FilterConcat(enrollments, [e], (e: Enrollment) => ActiveEnrollment(e, selected));
    assert Filter([e], (e: Enrollment) => ActiveEnrollment(e, selected)) == [e];
  }

  /** `periodGrades`. */
  function PeriodGrades(grades: seq<Grade>, selected: Option<string>): (r: seq<Grade>)
    ensures forall i :: 0 <= i < |r| ==> SamePeriod(r[i].periodId, selected)
    ensures forall i :: 0 <= i < |grades| && SamePeriod(grades[i].periodId, selected) ==> grades[i] in r
  {
    Filter(grades, (g: Grade) => SamePeriod(g.periodId, selected))
  }

  function SumGrades(gs: seq<Grade>): int
    decreases |gs|
  {
    if gs == [] then 0 else gs[0].grade + SumGrades(gs[1..])
  }

  /** `averageGrade`: the mean of the period's grades to the nearest integer,
      and 0 when the period has none. */
  function AverageGrade(grades: seq<Grade>, selected: Option<string>): (avg: int)
    ensures |PeriodGrades(grades, selected)| == 0 ==> avg == 0
    ensures |PeriodGrades(grades, selected)| > 0 ==>
              avg == RoundHalfAway(SumGrades(PeriodGrades(grades, selected)), |PeriodGrades(grades, selected)|)
  {
    var gs := PeriodGrades(grades, selected);
    if |gs| > 0 then RoundHalfAway(SumGrades(gs), |gs|) else 0
  }

  /** When every grade lies in [lo, hi], the rounded average does too. */
  lemma AverageGradeBounds(grades: seq<Grade>, selected: Option<string>, lo: nat, hi: nat)
    requires forall i :: 0 <= i < |grades| ==> lo <= grades[i].grade <= hi
    ensures |PeriodGrades(grades, selected)| > 0 ==> lo <= AverageGrade(grades, selected) <= hi
  {
    var gs := PeriodGrades(grades, selected);
    if |gs| > 0 {
      assert forall i :: 0 <= i < |gs| ==> gs[i] in grades;
      SumBounds(gs, lo, hi);
      RoundedBetween(SumGrades(gs), |gs|, AverageGrade(grades, selected), lo, hi);
    }
  }

  lemma {:induction false} SumBounds(gs: seq<Grade>, lo: nat, hi: nat)
    requires forall i :: 0 <= i < |gs| ==> lo <= gs[i].grade <= hi
    ensures lo * |gs| <= SumGrades(gs) <= hi * |gs|
    decreases |gs|
  {
    if gs != [] {
      SumBounds(gs[1..], lo, hi);
      assert lo * |gs| == lo + lo * |gs[1..]|;
      assert hi * |gs| == hi + hi * |gs[1..]|;
    }
  }

  /** The nearest integer to n / d lies between any bounds n / d lies between. */
  lemma RoundedBetween(n: int, d: nat, r: int, lo: int, hi: int)
    requires d > 0 && lo * d <= n <= hi * d
    requires 2 * d * r <= 2 * n + d < 2 * d * r + 2 * d
    ensures lo <= r <= hi
  {
    assert (2 * lo + 1) * d < (2 * r + 2) * d;
    MulCancelLess(2 * lo + 1, 2 * r + 2, d);
    assert (2 * r) * d <= (2 * hi + 1) * d;
    MulCancelAtMost(2 * r, 2 * hi + 1, d);
  }

  lemma MulCancelLess(a: int, b: int, d: nat)
    requires d > 0 && a * d < b * d
    ensures a < b
  {
    assert (b - a) * d == b * d - a * d;
  }

  lemma MulCancelAtMost(a: int, b: int, d: nat)
    requires d > 0 && a * d <= b * d
    ensures a <= b
  {
    assert (b - a) * d == b * d - a * d;
  }

  /** The average card's caption. */
  function GradeLabel(avg: int): (caption: string)
    ensures caption == "Aprobatorio" <==> avg >= 70
    ensures caption == "Bajo" <==> avg < 70
  {
    if avg >= 70 then "Aprobatorio" else "Bajo"
  }

  /** `attendanceRate`: the percentage of present marks among the period's
      records, to the nearest integer, and 0 when there are none. */
  function AttendanceRate(attendances: seq<Attendance>, selected: Option<string>): (rate: nat)
    ensures rate <= 100
    ensures var xs := PeriodAttendances(attendances, selected);
      |xs| == 0 ==> rate == 0
    ensures var xs := PeriodAttendances(attendances, selected);
      |xs| > 0 ==> 2 * |xs| * rate <= 200 * StatusCount(xs, Present) + |xs| < 2 * |xs| * rate + 2 * |xs|
  {
    var xs := PeriodAttendances(attendances, selected);
    if |xs| > 0 then
      var r := RoundHalfUp(100 * StatusCount(xs, Present), |xs|);
      RoundedBetween(100 * StatusCount(xs, Present), |xs|, r, 0, 100);
      r
    else 0
  }

  /** The attendance card's caption. */
  function AttendanceLabel(rate: int): (caption: string)
    ensures caption == "Normal" <==> rate >= 80
    ensures caption == "Baja" <==> rate < 80
  {
    if rate >= 80 then "Normal" else "Baja"
  }

  /** `activeAlerts`: unresolved alerts of the period. */
  function ActiveAlertCount(alerts: seq<StudentRiskAlert>, selected: Option<string>): (n: nat)
    ensures n == |OpenAlerts(alerts, selected)|
  {
    Count(alerts, (a: StudentRiskAlert) => OpenAlert(a, selected))
  }

  /** The card counts every pending alert while the panel shows at most
      five of them, so the panel is full or shows them all. */
  lemma AlertCardMatchesPanel(alerts: seq<StudentRiskAlert>, selected: Option<string>)
    ensures |ActiveAlerts(alerts, selected)| == if ActiveAlertCount(alerts, selected) < 5 then ActiveAlertCount(alerts, selected) else 5
  {
  }

  /** The alert card's caption. */
  function AlertLabel(count: nat): (caption: string)
    ensures caption == "Sin alertas" <==> count == 0
    ensures caption == "Requieren atención" <==> count > 0
  {
    if count > 0 then "Requieren atención" else "Sin alertas"
  }

  /** The test of `periodWithdrawals`. */
  function InPeriodOf(selected: Option<string>): Withdrawal -> bool {
    (w: Withdrawal) => SamePeriod(w.periodId, selected)
  }

  predicate IsTemporary(w: Withdrawal) {
    w.withdrawalType == Temporary
  }

  /** `periodWithdrawals`: the number of withdrawals of the selected period. */
  function PeriodWithdrawalCount(withdrawals: seq<Withdrawal>, selected: Option<string>): (n: nat)
    ensures n <= |withdrawals|
    ensures n == 0 <==> forall i :: 0 <= i < |withdrawals| ==> !SamePeriod(withdrawals[i].periodId, selected)
  {
    CountZero(withdrawals, InPeriodOf(selected));
    Count(withdrawals, InPeriodOf(selected))
  }

  /** The "temporales" caption: temporary withdrawals of every period. */
  function TemporaryWithdrawalCount(withdrawals: seq<Withdrawal>): (n: nat)
    ensures n <= |withdrawals|
    ensures n == 0 <==> forall i :: 0 <= i < |withdrawals| ==> withdrawals[i].withdrawalType != Temporary
  {
    CountZero(withdrawals, IsTemporary);
    Count(withdrawals, IsTemporary)
  }

  /** A temporary withdrawal of another period adds one to the caption and
      nothing to the card's figure, whatever was recorded before it, so the
      caption can exceed the figure. */
  lemma TemporaryCaptionIgnoresPeriod(withdrawals: seq<Withdrawal>, w: Withdrawal, selected: Option<string>)
    requires w.withdrawalType == Temporary && !SamePeriod(w.periodId, selected)
    ensures PeriodWithdrawalCount(withdrawals + [w], selected) == PeriodWithdrawalCount(withdrawals, selected)
    ensures TemporaryWithdrawalCount(withdrawals + [w]) == TemporaryWithdrawalCount(withdrawals) + 1
  {
    CountSnoc(withdrawals, w, InPeriodOf(selected));
    CountSnoc(withdrawals, w, IsTemporary);
  }

  /** The figures of the cards that are not period-scoped. */
  predicate IsActiveStudent(s: Student) {
    s.status == StudentStatus.Active
  }

  predicate IsActiveTeacher(t: Teacher) {
    t.status == TeacherStatus.Active
  }

  predicate IsOnLeave(t: Teacher) {
    t.status == OnLeave
  }

  predicate IsActiveCareer(c: Career) {
    c.status == CareerStatus.Active
  }

  /** `activeStudents`: the students whose status is active. */
  function ActiveStudentCount(students: seq<Student>): (n: nat)
    ensures n <= |students|
    ensures n == 0 <==> forall i :: 0 <= i < |students| ==> students[i].status != StudentStatus.Active
    ensures n == |students| <==> forall i :: 0 <= i < |students| ==> students[i].status == StudentStatus.Active
  {
    CountZero(students, IsActiveStudent);
    CountAll(students, IsActiveStudent);
    Count(students, IsActiveStudent)
  }

  /** `activeTeachers`: the teachers whose status is active. */
  function ActiveTeacherCount(teachers: seq<Teacher>): (n: nat)
    ensures n <= |teachers|
    ensures n == 0 <==> forall i :: 0 <= i < |teachers| ==> teachers[i].status != TeacherStatus.Active
    ensures n == |teachers| <==> forall i :: 0 <= i < |teachers| ==> teachers[i].status == TeacherStatus.Active
  {
    CountZero(teachers, IsActiveTeacher);
    CountAll(teachers, IsActiveTeacher);
    Count(teachers, IsActiveTeacher)
  }

  /** The "de licencia" caption: the teachers on leave. */
  function TeachersOnLeave(teachers: seq<Teacher>): (n: nat)
    ensures n <= |teachers|
    ensures n == 0 <==> forall i :: 0 <= i < |teachers| ==> teachers[i].status != OnLeave
  {
    CountZero(teachers, IsOnLeave);
    Count(teachers, IsOnLeave)
  }

  /** An active teacher is never on leave, so the teacher card's figure and
      its caption together count each teacher at most once. */
  lemma TeacherFiguresDisjoint(teachers: seq<Teacher>)
    ensures ActiveTeacherCount(teachers) + TeachersOnLeave(teachers) <= |teachers|
  {
    CountDisjoint(teachers, IsActiveTeacher, IsOnLeave);
  }

  /** The "Carreras" card: the careers whose status is active. */
  function ActiveCareerCount(careers: seq<Career>): (n: nat)
    ensures n <= |careers|
    ensures n == 0 <==> forall i :: 0 <= i < |careers| ==> careers[i].status != CareerStatus.Active
    ensures n == |careers| <==> forall i :: 0 <= i < |careers| ==> careers[i].status == CareerStatus.Active
  {
    CountZero(careers, IsActiveCareer);
    CountAll(careers, IsActiveCareer);
    Count(careers, IsActiveCareer)
  }

  /** With no period selected, every period-scoped figure is zero. */
  lemma NoPeriodZeroFigures(enrollments: seq<Enrollment>, grades: seq<Grade>, attendances: seq<Attendance>,
                            alerts: seq<StudentRiskAlert>, withdrawals: seq<Withdrawal>)
    ensures EnrolledCount(enrollments, None) == 0
    ensures |PeriodGrades(grades, None)| == 0 && AverageGrade(grades, None) == 0
    ensures |PeriodAttendances(attendances, None)| == 0 && AttendanceRate(attendances, None) == 0
    ensures ActiveAlertCount(alerts, None) == 0
    ensures PeriodWithdrawalCount(withdrawals, None) == 0
  {
    FilterDropsAll(enrollments, (e: Enrollment) => ActiveEnrollment(e, None));
    FilterDropsAll(grades, (g: Grade) => SamePeriod(g.periodId, None));
    NoPeriodNoAlerts(alerts);
    FilterDropsAll(alerts, (a: StudentRiskAlert) => OpenAlert(a, None));
  }
}
