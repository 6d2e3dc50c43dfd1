/** Facts about the seed records: they respect the year-of-study rule,
    their ids are unique, their references resolve, the withdrawals agree
    with the students' statuses, and the figures the dashboard shows for
    the default period. */
module SeedFacts {
  import opened Wrappers
  import opened Seqs
  import opened Data
  import opened Utils
  import opened Store
  import opened Bajas
  import opened AttendanceSummary

  /** Every seed student's `nivel` is the year its semester falls in. */
  lemma SeedStudentsNivel()
    ensures forall i :: 0 <= i < |Students| ==> Students[i].nivel == Nivel(Students[i].currentSemester)
  {
  }

  /** Every seed subject's `nivel` is the year its semester falls in. */
  lemma SeedSubjectsNivel()
    ensures forall i :: 0 <= i < |Subjects| ==> Subjects[i].nivel == Nivel(Subjects[i].semester)
  {
  }

  /** The ids "1", "2", ... in order. */
  const Numbered: seq<string> := ["1", "2", "3", "4", "5", "6", "7", "8", "9", "10", "11", "12"]

  lemma NumberedDistinct()
    ensures NoDuplicates(Numbered)
  {
  }

  /** Every numbered collection's ids are distinct. */
  lemma NumberedUnique<T>(xs: seq<T>, id: T -> string)
    requires |xs| <= |Numbered|
    requires forall i :: 0 <= i < |xs| ==> id(xs[i]) == Numbered[i]
    ensures forall i, j :: 0 <= i < j < |xs| ==> id(xs[i]) != id(xs[j])
  {
    NumberedDistinct();
  }

  lemma StudentsNumbered()
    ensures forall i :: 0 <= i < |Students| ==> Students[i].id == Numbered[i]
  {
  }

  lemma SubjectsNumbered()
    ensures forall i :: 0 <= i < |Subjects| ==> Subjects[i].id == Numbered[i]
  {
  }

  /** Ids are unique within each seed collection: the periods are named by
      their term, every other collection numbers its records "1", "2", ...
      in order. */
  lemma SeedPeriodIdsUnique()
    ensures forall i, j :: 0 <= i < j < |AcademicPeriods| ==> AcademicPeriods[i].id != AcademicPeriods[j].id
  {
  }

  lemma SeedCareerIdsUnique()
    ensures forall i, j :: 0 <= i < j < |Careers| ==> Careers[i].id != Careers[j].id
  {
    NumberedUnique(Careers, (c: Career) => c.id);
  }

  lemma SeedStudentIdsUnique()
    ensures forall i, j :: 0 <= i < j < |Students| ==> Students[i].id != Students[j].id
  {
    StudentsNumbered();
    NumberedUnique(Students, (s: Student) => s.id);
  }

  lemma SeedTeacherIdsUnique()
    ensures forall i, j :: 0 <= i < j < |Teachers| ==> Teachers[i].id != Teachers[j].id
  {
    NumberedUnique(Teachers, (t: Teacher) => t.id);
  }

  lemma SeedSubjectIdsUnique()
    ensures forall i, j :: 0 <= i < j < |Subjects| ==> Subjects[i].id != Subjects[j].id
  {
    SubjectsNumbered();
    NumberedUnique(Subjects, (s: Subject) => s.id);
  }

  lemma SeedEnrollmentIdsUnique()
    ensures forall i, j :: 0 <= i < j < |Enrollments| ==> Enrollments[i].id != Enrollments[j].id
  {
    NumberedUnique(Enrollments, (e: Enrollment) => e.id);
  }

  lemma SeedAttendanceIdsUnique()
    ensures forall i, j :: 0 <= i < j < |Attendances| ==> Attendances[i].id != Attendances[j].id
  {
    NumberedUnique(Attendances, (a: Attendance) => a.id);
  }

  lemma SeedGradeIdsUnique()
    ensures forall i, j :: 0 <= i < j < |Grades| ==> Grades[i].id != Grades[j].id
  {
    NumberedUnique(Grades, (g: Grade) => g.id);
  }

  lemma SeedWithdrawalIdsUnique()
    ensures forall i, j :: 0 <= i < j < |Withdrawals| ==> Withdrawals[i].id != Withdrawals[j].id
  {
    NumberedUnique(Withdrawals, (w: Withdrawal) => w.id);
  }

  lemma SeedAlertIdsUnique()
    ensures forall i, j :: 0 <= i < j < |StudentRiskAlerts| ==> StudentRiskAlerts[i].id != StudentRiskAlerts[j].id
  {
    NumberedUnique(StudentRiskAlerts, (a: StudentRiskAlert) => a.id);
  }

  lemma SeedAssignmentIdsUnique()
    ensures forall i, j :: 0 <= i < j < |Assignments| ==> Assignments[i].id != Assignments[j].id
  {
    NumberedUnique(Assignments, (a: Assignment) => a.id);
  }

  lemma SeedSubmissionIdsUnique()
    ensures forall i, j :: 0 <= i < j < |StudentAssignments| ==> StudentAssignments[i].id != StudentAssignments[j].id
  {
    NumberedUnique(StudentAssignments, (a: StudentAssignment) => a.id);
  }

  lemma SeedCourseIdsUnique()
    ensures forall i, j :: 0 <= i < j < |Courses| ==> Courses[i].id != Courses[j].id
  {
    NumberedUnique(Courses, (c: Course) => c.id);
  }

  /** A numbered student or subject id is found. */
  lemma NumberedStudentFound(k: nat)
    requires k < |Students|
    ensures StudentWithId(Students, Numbered[k]).Some?
  {
    StudentsNumbered();
    assert Students[k].id == Numbered[k];
  }

  lemma NumberedSubjectFound(k: nat)
    requires k < |Subjects|
    ensures SubjectWithId(Subjects, Numbered[k]).Some?
  {
    SubjectsNumbered();
    assert Subjects[k].id == Numbered[k];
  }

  /** The position of each enrollment's student and subjects. */
  const EnrolledAt: seq<nat> := [0, 1, 2, 7, 3]
  const EnrolledSubjectsAt: seq<seq<nat>> := [[0, 1, 2, 3, 4], [0, 1, 2, 3, 4], [5, 6], [0, 1, 2, 3, 4], [7]]

  /** Every enrollment names an existing student and existing subjects. */
  lemma SeedEnrollmentsResolve()
    ensures forall i :: 0 <= i < |Enrollments| ==> StudentWithId(Students, Enrollments[i].studentId).Some?
    ensures forall i, j :: 0 <= i < |Enrollments| && 0 <= j < |Enrollments[i].subjectIds| ==>
              SubjectWithId(Subjects, Enrollments[i].subjectIds[j]).Some?
  {
    assert forall i :: 0 <= i < |Enrollments| ==> EnrolledAt[i] < 8 && Enrollments[i].studentId == Numbered[EnrolledAt[i]];
    forall i | 0 <= i < |Enrollments|
      ensures StudentWithId(Students, Enrollments[i].studentId).Some?
    {
      NumberedStudentFound(EnrolledAt[i]);
    }
    forall i, j | 0 <= i < |Enrollments| && 0 <= j < |Enrollments[i].subjectIds|
      ensures SubjectWithId(Subjects, Enrollments[i].subjectIds[j]).Some?
    {
      EnrolledSubjectsResolve(i, j);
    }
  }

  lemma EnrolledSubjectsResolve(i: nat, j: nat)
    requires i < |Enrollments| && j < |Enrollments[i].subjectIds|
    ensures SubjectWithId(Subjects, Enrollments[i].subjectIds[j]).Some?
  {
    assert |EnrolledSubjectsAt[i]| == |Enrollments[i].subjectIds|;
    assert EnrolledSubjectsAt[i][j] < 8 && Enrollments[i].subjectIds[j] == Numbered[EnrolledSubjectsAt[i][j]];
    NumberedSubjectFound(EnrolledSubjectsAt[i][j]);
  }

  /** The position of each attendance mark's and each withdrawal's student. */
  const MarkedAt: seq<nat> := [0, 0, 1, 1, 0, 2, 7, 0, 1, 1, 1, 7]
  const WithdrawnAt: seq<nat> := [4, 6]

  /** Every attendance mark and every withdrawal names an existing student. */
  lemma SeedStudentReferencesResolve()
    ensures forall i :: 0 <= i < |Attendances| ==> StudentWithId(Students, Attendances[i].studentId).Some?
    ensures forall i :: 0 <= i < |Withdrawals| ==> StudentWithId(Students, Withdrawals[i].studentId).Some?
  {
    MarkedStudentsResolve();
    WithdrawnStudentsResolve();
  }

  lemma MarkedStudentsResolve()
    ensures forall i :: 0 <= i < |Attendances| ==> StudentWithId(Students, Attendances[i].studentId).Some?
  {
    assert forall i :: 0 <= i < |Attendances| ==> MarkedAt[i] < 8 && Attendances[i].studentId == Numbered[MarkedAt[i]];
    forall i | 0 <= i < |Attendances|
      ensures StudentWithId(Students, Attendances[i].studentId).Some?
    {
      NumberedStudentFound(MarkedAt[i]);
    }
  }

  lemma WithdrawnStudentsResolve()
    ensures forall i :: 0 <= i < |Withdrawals| ==> StudentWithId(Students, Withdrawals[i].studentId).Some?
  {
    assert forall i :: 0 <= i < |Withdrawals| ==> WithdrawnAt[i] < 8 && Withdrawals[i].studentId == Numbered[WithdrawnAt[i]];
    forall i | 0 <= i < |Withdrawals|
      ensures StudentWithId(Students, Withdrawals[i].studentId).Some?
    {
      NumberedStudentFound(WithdrawnAt[i]);
    }
  }

  /** The withdrawn student "5" left for good and the suspended student "7"
      left temporarily: each student's status is the one registering their
      withdrawal sets, and student "5" carries its date and reason label. */
  lemma SeedWithdrawalsAgree()
    ensures forall i :: 0 <= i < |Withdrawals| ==>
              exists k :: 0 <= k < |Students| && Students[k].id == Withdrawals[i].studentId
                          && Students[k].status == StatusAfter(Withdrawals[i].withdrawalType)
    ensures Students[4].withdrawalDate == Some(Withdrawals[0].date)
    ensures Students[4].withdrawalReason == Some(ReasonLabel(Withdrawals[0].reason))
  {
    assert Students[4].id == Withdrawals[0].studentId;
    assert Students[6].id == Withdrawals[1].studentId;
  }

  predicate IsActivePeriod(p: AcademicPeriod) {
    p.status == PeriodStatus.Active
  }

  /** One seed period is active, and it is the one the store starts with. */
  lemma SeedActivePeriod()
    ensures Count(AcademicPeriods, IsActivePeriod) == 1
    ensures AcademicPeriods[0].status == PeriodStatus.Active && AcademicPeriods[0].id == DefaultPeriodId
  {
    assert forall i :: 1 <= i < |AcademicPeriods| ==> !IsActivePeriod(AcademicPeriods[i]);
    CountOnlyFirst(AcademicPeriods, IsActivePeriod);
  }

  /** The statuses of the seed marks, in order. */
  const MarkStatuses: seq<AttendanceStatus> :=
    [Present, Present, Absent, AttendanceStatus.Late, Present, Excused,
     Present, Present, Absent, Absent, Absent, AttendanceStatus.Late]

  /** Every seed mark belongs to the default period. */
  lemma SeedMarksInDefaultPeriod()
    ensures PeriodAttendances(Attendances, Some(DefaultPeriodId)) == Attendances
  {
    assert forall i :: 0 <= i < |Attendances| ==> InPeriod(Attendances[i], Some(DefaultPeriodId));
    FilterKeepsAll(Attendances, (a: Attendance) => InPeriod(a, Some(DefaultPeriodId)));
  }

  /** How often each status occurs among the seed marks. */
  lemma MarkMultiplicities()
    ensures multiset(MarkStatuses)[Present] == 5 && multiset(MarkStatuses)[Absent] == 4
    ensures multiset(MarkStatuses)[AttendanceStatus.Late] == 2 && multiset(MarkStatuses)[Excused] == 1
  {
  }

  /** Tallying marks whose statuses are known. */
  lemma TalliesByStatuses(xs: seq<Attendance>, marks: seq<AttendanceStatus>)
    requires |marks| == |xs| && forall i :: 0 <= i < |xs| ==> xs[i].status == marks[i]
    ensures Tallies(xs) == StatusTally(multiset(marks)[Present], multiset(marks)[Absent],
                                       multiset(marks)[AttendanceStatus.Late], multiset(marks)[Excused])
  {
    var status := (a: Attendance) => a.status;
    assert Map(xs, status) == marks;
    CountImage(xs, status, Present, (a: Attendance) => a.status == Present);
    CountImage(xs, status, Absent, (a: Attendance) => a.status == Absent);
    CountImage(xs, status, AttendanceStatus.Late, (a: Attendance) => a.status == AttendanceStatus.Late);
    CountImage(xs, status, Excused, (a: Attendance) => a.status == Excused);
  }

  /** When every mark is in the period, the period's tallies are those of
      all the marks. */
  lemma TalliesInPeriod(xs: seq<Attendance>, selected: Option<string>, marks: seq<AttendanceStatus>)
    requires forall i :: 0 <= i < |xs| ==> InPeriod(xs[i], selected)
    requires |marks| == |xs| && forall i :: 0 <= i < |xs| ==> xs[i].status == marks[i]
    ensures Tallies(PeriodAttendances(xs, selected)) == StatusTally(multiset(marks)[Present], multiset(marks)[Absent],
                                       multiset(marks)[AttendanceStatus.Late], multiset(marks)[Excused])
  {
    FilterKeepsAll(xs, (a: Attendance) => InPeriod(a, selected));
    TalliesByStatuses(xs, marks);
  }

  /** The dashboard's tallies for the default period: five present, four
      absent, two late, one excused. */
  lemma SeedDefaultTallies()
    ensures Tallies(PeriodAttendances(Attendances, Some(DefaultPeriodId))) == StatusTally(5, 4, 2, 1)
  {
    SeedMarksFacts();
    MarkMultiplicities();
    TalliesInPeriod(Attendances, Some(DefaultPeriodId), MarkStatuses);
  }

  /** The default period has four absences, all of them student "2"'s. */
  lemma SeedAbsencesAllOneStudent()
    ensures |AbsentIds(Attendances, Some(DefaultPeriodId))| == 4
    ensures forall i :: 0 <= i < |AbsentIds(Attendances, Some(DefaultPeriodId))| ==>
              AbsentIds(Attendances, Some(DefaultPeriodId))[i] == "2"
  {
    SeedMarksFacts();
    MarkMultiplicities();
    AbsencesFromMarks(Attendances, Some(DefaultPeriodId), "2", MarkStatuses);
  }

  /** The seed marks one at a time: all in the default period, with the
      statuses listed above, and every absence student "2"'s. */
  lemma SeedMarksFacts()
    ensures forall i :: 0 <= i < |Attendances| ==> InPeriod(Attendances[i], Some(DefaultPeriodId))
    ensures |MarkStatuses| == |Attendances| && forall i :: 0 <= i < |Attendances| ==> Attendances[i].status == MarkStatuses[i]
    ensures forall i :: 0 <= i < |Attendances| && IsAbsent(Attendances[i]) ==> Attendances[i].studentId == "2"
  {
  }

  /** When every mark is in the period and every absence is one student's,
      the absent ids are that student's, as many as the absent statuses. */
  lemma AbsencesFromMarks(xs: seq<Attendance>, selected: Option<string>, id: string, marks: seq<AttendanceStatus>)
    requires forall i :: 0 <= i < |xs| ==> InPeriod(xs[i], selected)
    requires |marks| == |xs| && forall i :: 0 <= i < |xs| ==> xs[i].status == marks[i]
    requires forall i :: 0 <= i < |xs| && IsAbsent(xs[i]) ==> xs[i].studentId == id
    ensures |AbsentIds(xs, selected)| == multiset(marks)[Absent]
    ensures forall i :: 0 <= i < |AbsentIds(xs, selected)| ==> AbsentIds(xs, selected)[i] == id
  {
    FilterKeepsAll(xs, (a: Attendance) => InPeriod(a, selected));
    assert Map(xs, (a: Attendance) => a.status) == marks;
    FilterSameOn(xs, IsAbsent, (a: Attendance) => a.status == Absent);
    CountImage(xs, (a: Attendance) => a.status, Absent, (a: Attendance) => a.status == Absent);
    var absent := Filter(xs, IsAbsent);
    forall i | 0 <= i < |absent| ensures absent[i].studentId == id {
      var j :| 0 <= j < |xs| && xs[j] == absent[i];
    }
  }
}
