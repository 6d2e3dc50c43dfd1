/** The client-side cache (`useStore`): thirteen record lists, the selected
    academic period, a loading flag and the last error. Each action waits for
    the server and then rewrites exactly one list; the server's answer is a
    parameter of the action, and a failed request leaves the state as it was. */
module Store {
  import opened Wrappers
  import opened Seqs
  import opened Data

  /** A rejected request: the message of the thrown `Error`. */
  datatype ApiError = ApiError(message: string)

  /** What `initialize` fetches, one list per collection. */
  datatype Snapshot = Snapshot(
    students: seq<Student>, courses: seq<Course>, grades: seq<Grade>,
    teachers: seq<Teacher>, subjects: seq<Subject>, attendances: seq<Attendance>,
    assignments: seq<Assignment>, studentAssignments: seq<StudentAssignment>,
    withdrawals: seq<Withdrawal>, academicPeriods: seq<AcademicPeriod>,
    careers: seq<Career>, enrollments: seq<Enrollment>,
    studentRiskAlerts: seq<StudentRiskAlert>)

  /** The body of the PATCH request sent by `resolveRiskAlert`. */
  datatype AlertPatch = AlertPatch(resolved: bool, resolvedDate: string, resolvedNotes: string)

  /** The patch that marks an alert resolved today with the given notes. */
  function ResolvePatch(today: string, notes: string): (p: AlertPatch)
    ensures p.resolved
    ensures p.resolvedDate == today && p.resolvedNotes == notes
  {
    AlertPatch(true, today, notes)
  }

  /** A partial update merged into a stored alert, the way the server applies
      a PATCH: the three patched fields change and nothing else does. */
  function ApplyAlertPatch(a: StudentRiskAlert, p: AlertPatch): (r: StudentRiskAlert)
    ensures r.id == a.id && r.studentId == a.studentId && r.periodId == a.periodId
    ensures r.alertType == a.alertType && r.severity == a.severity
    ensures r.description == a.description && r.date == a.date
    ensures r.resolved == p.resolved
    ensures r.resolvedDate == Some(p.resolvedDate) && r.resolvedNotes == Some(p.resolvedNotes)
  {
    a.(resolved := p.resolved, resolvedDate := Some(p.resolvedDate), resolvedNotes := Some(p.resolvedNotes))
  }

  function StudentId(x: Student): string { x.id }
  function CourseId(x: Course): string { x.id }
  function GradeId(x: Grade): string { x.id }
  function TeacherId(x: Teacher): string { x.id }
  function SubjectId(x: Subject): string { x.id }
  function AttendanceId(x: Attendance): string { x.id }
  function AssignmentId(x: Assignment): string { x.id }
  function StudentAssignmentId(x: StudentAssignment): string { x.id }
  function WithdrawalId(x: Withdrawal): string { x.id }
  function AcademicPeriodId(x: AcademicPeriod): string { x.id }
  function CareerId(x: Career): string { x.id }
  function EnrollmentId(x: Enrollment): string { x.id }
  function StudentRiskAlertId(x: StudentRiskAlert): string { x.id }

  /** The dashboards' period test `x.periodId === selectedPeriodId`: nothing
      matches when no period is selected. */
  predicate SamePeriod(periodId: string, selected: Option<string>) {
    selected == Some(periodId)
  }

  /** The withdrawals page's test `!selectedPeriodId || x.periodId === selectedPeriodId`:
      no period, or the empty one, selects every record. */
  predicate InSelection(periodId: string, selected: Option<string>) {
    selected == None || selected == Some("") || selected == Some(periodId)
  }

  /** An active enrollment in the selected period. */
  predicate ActiveEnrollment(e: Enrollment, selected: Option<string>) {
    SamePeriod(e.periodId, selected) && e.status == EnrollmentStatus.Active
  }

  function EnrollmentStudent(e: Enrollment): string {
    e.studentId
  }

  /** `enrolledStudentIds`, shared by the dashboard and the withdrawals page:
      the student of every active enrollment of the period, one entry per
      enrollment, in stored order. */
  function EnrolledStudentIds(enrollments: seq<Enrollment>, selected: Option<string>): (ids: seq<string>)
    ensures |ids| == Count(enrollments, (e: Enrollment) => ActiveEnrollment(e, selected))
    ensures forall id :: id in ids <==>
              exists i :: 0 <= i < |enrollments| && ActiveEnrollment(enrollments[i], selected)
                          && enrollments[i].studentId == id
  {
    var active := Filter(enrollments, (e: Enrollment) => ActiveEnrollment(e, selected));
    var ids := Map(active, EnrollmentStudent);
    assert forall id :: id in ids ==> exists j :: 0 <= j < |active| && active[j].studentId == id;
    ids
  }

  /** `students.find(s => s.id === id)`. */
  function StudentWithId(students: seq<Student>, id: string): (r: Option<Student>)
    ensures r.None? <==> forall i :: 0 <= i < |students| ==> students[i].id != id
    ensures r.Some? ==> r.value in students && r.value.id == id
    ensures r.Some? ==> exists i :: 0 <= i < |students| && students[i] == r.value && forall j :: 0 <= j < i ==> students[j].id != id
  {
    Find(students, (s: Student) => s.id == id)
  }

  /** `careers.find(c => c.id === id)`. */
  function CareerWithId(careers: seq<Career>, id: string): (r: Option<Career>)
    ensures r.None? <==> forall i :: 0 <= i < |careers| ==> careers[i].id != id
    ensures r.Some? ==> r.value in careers && r.value.id == id
    ensures r.Some? ==> exists i :: 0 <= i < |careers| && careers[i] == r.value && forall j :: 0 <= j < i ==> careers[j].id != id
  {
    Find(careers, (c: Career) => c.id == id)
  }

  /** `subjects.find(s => s.id === id)`. */
  function SubjectWithId(subjects: seq<Subject>, id: string): (r: Option<Subject>)
    ensures r.None? <==> forall i :: 0 <= i < |subjects| ==> subjects[i].id != id
    ensures r.Some? ==> r.value in subjects && r.value.id == id
    ensures r.Some? ==> exists i :: 0 <= i < |subjects| && subjects[i] == r.value && forall j :: 0 <= j < i ==> subjects[j].id != id
  {
    Find(subjects, (s: Subject) => s.id == id)
  }

  /** Whether a request succeeded, without its value. */
  function OutcomeOf<T>(r: Result<T, ApiError>): (o: Outcome<ApiError>)
    ensures o.Pass? <==> r.Success?
    ensures r.Failure? ==> o.error == r.error
  {
    match r
    case Success(_) => Pass
    case Failure(e) => Fail(e)
  }

  /** `[...list, created]` once the create request succeeds. */
  function Appended<T>(xs: seq<T>, created: Result<T, ApiError>): (r: seq<T>)
    ensures |r| == |xs| + (if created.Success? then 1 else 0)
    ensures r[..|xs|] == xs
    ensures created.Success? ==> r[|xs|] == created.value
  {
    match created
    case Success(x) => xs + [x]
    case Failure(_) => xs
  }

  /** `list.map(x => x.id === id ? updated : x)` once the update succeeds. */
  function Replaced<T>(xs: seq<T>, idOf: T -> string, id: string, updated: Result<T, ApiError>): (r: seq<T>)
    ensures |r| == |xs|
    ensures forall i :: 0 <= i < |xs| ==>
              r[i] == if updated.Success? && idOf(xs[i]) == id then updated.value else xs[i]
  {
    match updated
    case Success(u) => ReplaceWhere(xs, x => idOf(x) == id, u)
    case Failure(_) => xs
  }

  /** `list.filter(x => x.id !== id)` once the delete succeeds. */
  function Removed<T>(xs: seq<T>, idOf: T -> string, id: string, deleted: Outcome<ApiError>): (r: seq<T>)
    ensures deleted.Fail? ==> r == xs
    ensures deleted.Pass? ==> forall i :: 0 <= i < |r| ==> idOf(r[i]) != id
    ensures deleted.Pass? ==> forall i :: 0 <= i < |xs| && idOf(xs[i]) != id ==> xs[i] in r
    ensures deleted.Pass? ==> |r| + Count(xs, x => idOf(x) == id) == |xs|
    ensures multiset(r) <= multiset(xs)
  {
    match deleted
    case Pass =>
      FilterSplit(xs, x => idOf(x) == id, x => idOf(x) != id);
      Filter(xs, x => idOf(x) != id)
    case Fail(_) => xs
  }

  /** A delete keeps the survivors in their stored order. */
  lemma RemovedKeepsOrder<T>(xs: seq<T>, idOf: T -> string, id: string, deleted: Outcome<ApiError>)
    ensures Subseq(Removed(xs, idOf, id, deleted), xs)
  {
    if deleted.Pass? {
      FilterIsSubseq(xs, x => idOf(x) != id);
    } else {
      FilterKeepsAll(xs, x => true);
      FilterIsSubseq(xs, x => true);
    }
  }

  /** Updating or deleting an id that no record carries changes nothing. */
  lemma NoMatchNoChange<T>(xs: seq<T>, idOf: T -> string, id: string,
                           updated: Result<T, ApiError>, deleted: Outcome<ApiError>)
    requires forall i :: 0 <= i < |xs| ==> idOf(xs[i]) != id
    ensures Replaced(xs, idOf, id, updated) == xs
    ensures Removed(xs, idOf, id, deleted) == xs
  {
    if deleted.Pass? {
      FilterKeepsAll(xs, x => idOf(x) != id);
    }
  }

  /** Deleting a record just added under the same id undoes the add. */
  lemma RemoveAfterAdd<T>(xs: seq<T>, idOf: T -> string, x: T)
    ensures Removed(Appended(xs, Success(x)), idOf, idOf(x), Pass)
         == Removed(xs, idOf, idOf(x), Pass)
  {
    var p := (y: T) => idOf(y) != idOf(x);
    FilterConcat(xs, [x], p);
    assert Filter([x], p) == [];
  }

  /** Deleting after an update under the same id is the same as deleting. */
  lemma {:induction false} RemoveAfterUpdate<T>(xs: seq<T>, idOf: T -> string, id: string, u: T)
    requires idOf(u) == id
    ensures Removed(Replaced(xs, idOf, id, Success(u)), idOf, id, Pass)
         == Removed(xs, idOf, id, Pass)
    decreases |xs|
  {
    if xs != [] {
      var r := Replaced(xs, idOf, id, Success(u));
      var r' := Replaced(xs[1..], idOf, id, Success(u));
      assert r == [r[0]] + r';
      assert xs == [xs[0]] + xs[1..];
      RemoveAfterUpdate(xs[1..], idOf, id, u);
    }
  }

  /** Deleting twice is deleting once. */
  lemma RemoveIdempotent<T>(xs: seq<T>, idOf: T -> string, id: string)
    ensures Removed(Removed(xs, idOf, id, Pass), idOf, id, Pass) == Removed(xs, idOf, id, Pass)
  {
    var r := Removed(xs, idOf, id, Pass);
    FilterKeepsAll(r, x => idOf(x) != id);
  }

  /** The period selected when the application starts. */
  const DefaultPeriodId: string := "2025-1"

  /** The store. Zustand keeps its state as one object that every `set`
      replaces; the thirteen lists are that object's `records`, and each
      action below rewrites exactly one of them. */
  class AppStore {
    var records: Snapshot
    var selectedPeriodId: Option<string>
    var isLoading: bool
    var error: Option<string>

    /** The initial state: everything empty, period "2025-1", idle, no error. */
    constructor ()
      ensures records == Snapshot([], [], [], [], [], [], [], [], [], [], [], [], [])
      ensures selectedPeriodId == Some(DefaultPeriodId)
      ensures !isLoading && error == None
    {
      records := Snapshot([], [], [], [], [], [], [], [], [], [], [], [], []);
      selectedPeriodId := Some(DefaultPeriodId);
      isLoading, error := false, None;
    }

    /** `initialize`: on success all thirteen lists are the fetched ones; on
        failure they stay as they were and the message is kept. Either way
        the load ends and the selected period is untouched. */
    method Initialize(fetched: Result<Snapshot, ApiError>)
      modifies this
      ensures fetched.Success? ==> records == fetched.value && error == None
      ensures fetched.Failure? ==> records == old(records) && error == Some(fetched.error.message)
      ensures !isLoading
      ensures selectedPeriodId == old(selectedPeriodId)
    {
      isLoading, error := true, None;
      match fetched {
        case Success(s) =>
          records, isLoading := s, false;
        case Failure(e) =>
          error, isLoading := Some(e.message), false;
      }
    }

    /** `setSelectedPeriod`: the only action that changes the selected period. */
    method SetSelectedPeriod(periodId: Option<string>)
      modifies this`selectedPeriodId
      ensures selectedPeriodId == periodId
    {
      selectedPeriodId := periodId;
    }

    /** `bulkAddAttendance`: every created record, in request order, after the
        existing ones; nothing is added unless every request succeeded. */
    method BulkAddAttendance(created: Result<seq<Attendance>, ApiError>) returns (outcome: Outcome<ApiError>)
      modifies this`records
      ensures created.Success? ==> records == old(records).(attendances := old(records).attendances + created.value)
      ensures created.Failure? ==> records == old(records)
      ensures outcome == OutcomeOf(created)
    {
      if created.Success? {
        records := records.(attendances := records.attendances + created.value);
      }
      outcome := OutcomeOf(created);
    }

    /** `resolveRiskAlert`: sends the resolving patch for the alert and stores
        the server's answer in place of every alert with that id. */
    method ResolveRiskAlert(id: string, notes: string, today: string,
                            server: (string, AlertPatch) -> Result<StudentRiskAlert, ApiError>)
      returns (sent: AlertPatch, outcome: Outcome<ApiError>)
      modifies this`records
      ensures sent == ResolvePatch(today, notes)
      ensures records == old(records).(studentRiskAlerts :=
                Replaced(old(records).studentRiskAlerts, StudentRiskAlertId, id, server(id, sent)))
      ensures outcome == OutcomeOf(server(id, sent))
    {
      sent := ResolvePatch(today, notes);
      var updated := server(id, sent);
      records := records.(studentRiskAlerts := Replaced(records.studentRiskAlerts, StudentRiskAlertId, id, updated));
      outcome := OutcomeOf(updated);
    }

    /** `addStudent`: the server's copy of the new record is appended. */
    method AddStudent(created: Result<Student, ApiError>) returns (outcome: Outcome<ApiError>)
      modifies this`records
      ensures records == old(records).(students := Appended(old(records).students, created))
      ensures outcome == OutcomeOf(created)
    {
      records := records.(students := Appended(records.students, created));
      outcome := OutcomeOf(created);
    }

    /** `updateStudent`: every record with that id becomes the server's copy. */
    method UpdateStudent(id: string, updated: Result<Student, ApiError>) returns (outcome: Outcome<ApiError>)
      modifies this`records
      ensures records == old(records).(students := Replaced(old(records).students, StudentId, id, updated))
      ensures outcome == OutcomeOf(updated)
    {
      records := records.(students := Replaced(records.students, StudentId, id, updated));
      outcome := OutcomeOf(updated);
    }

    /** `deleteStudent`: the records with that id are dropped once the server agrees. */
    method DeleteStudent(id: string, deleted: Outcome<ApiError>) returns (outcome: Outcome<ApiError>)
      modifies this`records
      ensures records == old(records).(students := Removed(old(records).students, StudentId, id, deleted))
      ensures outcome == deleted
    {
      records := records.(students := Removed(records.students, StudentId, id, deleted));
      outcome := deleted;
    }

    /** `addCourse`: the server's copy of the new record is appended. */
    method AddCourse(created: Result<Course, ApiError>) returns (outcome: Outcome<ApiError>)
      modifies this`records
      ensures records == old(records).(courses := Appended(old(records).courses, created))
      ensures outcome == OutcomeOf(created)
    {
      records := records.(courses := Appended(records.courses, created));
      outcome := OutcomeOf(created);
    }

    /** `updateCourse`: every record with that id becomes the server's copy. */
    method UpdateCourse(id: string, updated: Result<Course, ApiError>) returns (outcome: Outcome<ApiError>)
      modifies this`records
      ensures records == old(records).(courses := Replaced(old(records).courses, CourseId, id, updated))
      ensures outcome == OutcomeOf(updated)
    {
      records := records.(courses := Replaced(records.courses, CourseId, id, updated));
      outcome := OutcomeOf(updated);
    }

    /** `deleteCourse`: the records with that id are dropped once the server agrees. */
    method DeleteCourse(id: string, deleted: Outcome<ApiError>) returns (outcome: Outcome<ApiError>)
      modifies this`records
      ensures records == old(records).(courses := Removed(old(records).courses, CourseId, id, deleted))
      ensures outcome == deleted
    {
      records := records.(courses := Removed(records.courses, CourseId, id, deleted));
      outcome := deleted;
    }

    /** `addGrade`: the server's copy of the new record is appended. */
    method AddGrade(created: Result<Grade, ApiError>) returns (outcome: Outcome<ApiError>)
      modifies this`records
      ensures records == old(records).(grades := Appended(old(records).grades, created))
      ensures outcome == OutcomeOf(created)
    {
      records := records.(grades := Appended(records.grades, created));
      outcome := OutcomeOf(created);
    }

    /** `updateGrade`: every record with that id becomes the server's copy. */
    method UpdateGrade(id: string, updated: Result<Grade, ApiError>) returns (outcome: Outcome<ApiError>)
      modifies this`records
      ensures records == old(records).(grades := Replaced(old(records).grades, GradeId, id, updated))
      ensures outcome == OutcomeOf(updated)
    {
      records := records.(grades := Replaced(records.grades, GradeId, id, updated));
      outcome := OutcomeOf(updated);
    }

    /** `deleteGrade`: the records with that id are dropped once the server agrees. */
    method DeleteGrade(id: string, deleted: Outcome<ApiError>) returns (outcome: Outcome<ApiError>)
      modifies this`records
      ensures records == old(records).(grades := Removed(old(records).grades, GradeId, id, deleted))
      ensures outcome == deleted
    {
      records := records.(grades := Removed(records.grades, GradeId, id, deleted));
      outcome := deleted;
    }

    /** `addTeacher`: the server's copy of the new record is appended. */
    method AddTeacher(created: Result<Teacher, ApiError>) returns (outcome: Outcome<ApiError>)
      modifies this`records
      ensures records == old(records).(teachers := Appended(old(records).teachers, created))
      ensures outcome == OutcomeOf(created)
    {
      records := records.(teachers := Appended(records.teachers, created));
      outcome := OutcomeOf(created);
    }

    /** `updateTeacher`: every record with that id becomes the server's copy. */
    method UpdateTeacher(id: string, updated: Result<Teacher, ApiError>) returns (outcome: Outcome<ApiError>)
      modifies this`records
      ensures records == old(records).(teachers := Replaced(old(records).teachers, TeacherId, id, updated))
      ensures outcome == OutcomeOf(updated)
    {
      records := records.(teachers := Replaced(records.teachers, TeacherId, id, updated));
      outcome := OutcomeOf(updated);
    }

    /** `deleteTeacher`: the records with that id are dropped once the server agrees. */
    method DeleteTeacher(id: string, deleted: Outcome<ApiError>) returns (outcome: Outcome<ApiError>)
      modifies this`records
      ensures records == old(records).(teachers := Removed(old(records).teachers, TeacherId, id, deleted))
      ensures outcome == deleted
    {
      records := records.(teachers := Removed(records.teachers, TeacherId, id, deleted));
      outcome := deleted;
    }

    /** `addSubject`: the server's copy of the new record is appended. */
    method AddSubject(created: Result<Subject, ApiError>) returns (outcome: Outcome<ApiError>)
      modifies this`records
      ensures records == old(records).(subjects := Appended(old(records).subjects, created))
      ensures outcome == OutcomeOf(created)
    {
      records := records.(subjects := Appended(records.subjects, created));
      outcome := OutcomeOf(created);
    }

    /** `updateSubject`: every record with that id becomes the server's copy. */
    method UpdateSubject(id: string, updated: Result<Subject, ApiError>) returns (outcome: Outcome<ApiError>)
      modifies this`records
      ensures records == old(records).(subjects := Replaced(old(records).subjects, SubjectId, id, updated))
      ensures outcome == OutcomeOf(updated)
    {
      records := records.(subjects := Replaced(records.subjects, SubjectId, id, updated));
      outcome := OutcomeOf(updated);
    }

    /** `deleteSubject`: the records with that id are dropped once the server agrees. */
    method DeleteSubject(id: string, deleted: Outcome<ApiError>) returns (outcome: Outcome<ApiError>)
      modifies this`records
      ensures records == old(records).(subjects := Removed(old(records).subjects, SubjectId, id, deleted))
      ensures outcome == deleted
    {
      records := records.(subjects := Removed(records.subjects, SubjectId, id, deleted));
      outcome := deleted;
    }

    /** `addAttendance`: the server's copy of the new record is appended. */
    method AddAttendance(created: Result<Attendance, ApiError>) returns (outcome: Outcome<ApiError>)
      modifies this`records
      ensures records == old(records).(attendances := Appended(old(records).attendances, created))
      ensures outcome == OutcomeOf(created)
    {
      records := records.(attendances := Appended(records.attendances, created));
      outcome := OutcomeOf(created);
    }

    /** `updateAttendance`: every record with that id becomes the server's copy. */
    method UpdateAttendance(id: string, updated: Result<Attendance, ApiError>) returns (outcome: Outcome<ApiError>)
      modifies this`records
      ensures records == old(records).(attendances := Replaced(old(records).attendances, AttendanceId, id, updated))
      ensures outcome == OutcomeOf(updated)
    {
      records := records.(attendances := Replaced(records.attendances, AttendanceId, id, updated));
      outcome := OutcomeOf(updated);
    }

    /** `deleteAttendance`: the records with that id are dropped once the server agrees. */
    method DeleteAttendance(id: string, deleted: Outcome<ApiError>) returns (outcome: Outcome<ApiError>)
      modifies this`records
      ensures records == old(records).(attendances := Removed(old(records).attendances, AttendanceId, id, deleted))
      ensures outcome == deleted
    {
      records := records.(attendances := Removed(records.attendances, AttendanceId, id, deleted));
      outcome := deleted;
    }

    /** `addAssignment`: the server's copy of the new record is appended. */
    method AddAssignment(created: Result<Assignment, ApiError>) returns (outcome: Outcome<ApiError>)
      modifies this`records
      ensures records == old(records).(assignments := Appended(old(records).assignments, created))
      ensures outcome == OutcomeOf(created)
    {
      records := records.(assignments := Appended(records.assignments, created));
      outcome := OutcomeOf(created);
    }

    /** `updateAssignment`: every record with that id becomes the server's copy. */
    method UpdateAssignment(id: string, updated: Result<Assignment, ApiError>) returns (outcome: Outcome<ApiError>)
      modifies this`records
      ensures records == old(records).(assignments := Replaced(old(records).assignments, AssignmentId, id, updated))
      ensures outcome == OutcomeOf(updated)
    {
      records := records.(assignments := Replaced(records.assignments, AssignmentId, id, updated));
      outcome := OutcomeOf(updated);
    }

    /** `deleteAssignment`: the records with that id are dropped once the server agrees. */
    method DeleteAssignment(id: string, deleted: Outcome<ApiError>) returns (outcome: Outcome<ApiError>)
      modifies this`records
      ensures records == old(records).(assignments := Removed(old(records).assignments, AssignmentId, id, deleted))
      ensures outcome == deleted
    {
      records := records.(assignments := Removed(records.assignments, AssignmentId, id, deleted));
      outcome := deleted;
    }

    /** `addStudentAssignment`: the server's copy of the new record is appended. */
    method AddStudentAssignment(created: Result<StudentAssignment, ApiError>) returns (outcome: Outcome<ApiError>)
      modifies this`records
      ensures records == old(records).(studentAssignments := Appended(old(records).studentAssignments, created))
      ensures outcome == OutcomeOf(created)
    {
      records := records.(studentAssignments := Appended(records.studentAssignments, created));
      outcome := OutcomeOf(created);
    }

    /** `updateStudentAssignment`: every record with that id becomes the server's copy. */
    method UpdateStudentAssignment(id: string, updated: Result<StudentAssignment, ApiError>) returns (outcome: Outcome<ApiError>)
      modifies this`records
      ensures records == old(records).(studentAssignments := Replaced(old(records).studentAssignments, StudentAssignmentId, id, updated))
      ensures outcome == OutcomeOf(updated)
    {
      records := records.(studentAssignments := Replaced(records.studentAssignments, StudentAssignmentId, id, updated));
      outcome := OutcomeOf(updated);
    }

    /** `deleteStudentAssignment`: the records with that id are dropped once the server agrees. */
    method DeleteStudentAssignment(id: string, deleted: Outcome<ApiError>) returns (outcome: Outcome<ApiError>)
      modifies this`records
      ensures records == old(records).(studentAssignments := Removed(old(records).studentAssignments, StudentAssignmentId, id, deleted))
      ensures outcome == deleted
    {
      records := records.(studentAssignments := Removed(records.studentAssignments, StudentAssignmentId, id, deleted));
      outcome := deleted;
    }

    /** `addWithdrawal`: the server's copy of the new record is appended. */
    method AddWithdrawal(created: Result<Withdrawal, ApiError>) returns (outcome: Outcome<ApiError>)
      modifies this`records
      ensures records == old(records).(withdrawals := Appended(old(records).withdrawals, created))
      ensures outcome == OutcomeOf(created)
    {
      records := records.(withdrawals := Appended(records.withdrawals, created));
      outcome := OutcomeOf(created);
    }

    /** `updateWithdrawal`: every record with that id becomes the server's copy. */
    method UpdateWithdrawal(id: string, updated: Result<Withdrawal, ApiError>) returns (outcome: Outcome<ApiError>)
      modifies this`records
      ensures records == old(records).(withdrawals := Replaced(old(records).withdrawals, WithdrawalId, id, updated))
      ensures outcome == OutcomeOf(updated)
    {
      records := records.(withdrawals := Replaced(records.withdrawals, WithdrawalId, id, updated));
      outcome := OutcomeOf(updated);
    }

    /** `deleteWithdrawal`: the records with that id are dropped once the server agrees. */
    method DeleteWithdrawal(id: string, deleted: Outcome<ApiError>) returns (outcome: Outcome<ApiError>)
      modifies this`records
      ensures records == old(records).(withdrawals := Removed(old(records).withdrawals, WithdrawalId, id, deleted))
      ensures outcome == deleted
    {
      records := records.(withdrawals := Removed(records.withdrawals, WithdrawalId, id, deleted));
      outcome := deleted;
    }

    /** `addAcademicPeriod`: the server's copy of the new record is appended. */
    method AddAcademicPeriod(created: Result<AcademicPeriod, ApiError>) returns (outcome: Outcome<ApiError>)
      modifies this`records
      ensures records == old(records).(academicPeriods := Appended(old(records).academicPeriods, created))
      ensures outcome == OutcomeOf(created)
    {
      records := records.(academicPeriods := Appended(records.academicPeriods, created));
      outcome := OutcomeOf(created);
    }

    /** `updateAcademicPeriod`: every record with that id becomes the server's copy. */
    method UpdateAcademicPeriod(id: string, updated: Result<AcademicPeriod, ApiError>) returns (outcome: Outcome<ApiError>)
      modifies this`records
      ensures records == old(records).(academicPeriods := Replaced(old(records).academicPeriods, AcademicPeriodId, id, updated))
      ensures outcome == OutcomeOf(updated)
    {
      records := records.(academicPeriods := Replaced(records.academicPeriods, AcademicPeriodId, id, updated));
      outcome := OutcomeOf(updated);
    }

    /** `addCareer`: the server's copy of the new record is appended. */
    method AddCareer(created: Result<Career, ApiError>) returns (outcome: Outcome<ApiError>)
      modifies this`records
      ensures records == old(records).(careers := Appended(old(records).careers, created))
      ensures outcome == OutcomeOf(created)
    {
      records := records.(careers := Appended(records.careers, created));
      outcome := OutcomeOf(created);
    }

    /** `updateCareer`: every record with that id becomes the server's copy. */
    method UpdateCareer(id: string, updated: Result<Career, ApiError>) returns (outcome: Outcome<ApiError>)
      modifies this`records
      ensures records == old(records).(careers := Replaced(old(records).careers, CareerId, id, updated))
      ensures outcome == OutcomeOf(updated)
    {
      records := records.(careers := Replaced(records.careers, CareerId, id, updated));
      outcome := OutcomeOf(updated);
    }

    /** `addEnrollment`: the server's copy of the new record is appended. */
    method AddEnrollment(created: Result<Enrollment, ApiError>) returns (outcome: Outcome<ApiError>)
      modifies this`records
      ensures records == old(records).(enrollments := Appended(old(records).enrollments, created))
      ensures outcome == OutcomeOf(created)
    {
      records := records.(enrollments := Appended(records.enrollments, created));
      outcome := OutcomeOf(created);
    }

    /** `updateEnrollment`: every record with that id becomes the server's copy. */
    method UpdateEnrollment(id: string, updated: Result<Enrollment, ApiError>) returns (outcome: Outcome<ApiError>)
      modifies this`records
      ensures records == old(records).(enrollments := Replaced(old(records).enrollments, EnrollmentId, id, updated))
      ensures outcome == OutcomeOf(updated)
    {
      records := records.(enrollments := Replaced(records.enrollments, EnrollmentId, id, updated));
      outcome := OutcomeOf(updated);
    }

    /** `deleteEnrollment`: the records with that id are dropped once the server agrees. */
    method DeleteEnrollment(id: string, deleted: Outcome<ApiError>) returns (outcome: Outcome<ApiError>)
      modifies this`records
      ensures records == old(records).(enrollments := Removed(old(records).enrollments, EnrollmentId, id, deleted))
      ensures outcome == deleted
    {
      records := records.(enrollments := Removed(records.enrollments, EnrollmentId, id, deleted));
      outcome := deleted;
    }

    /** `addRiskAlert`: the server's copy of the new record is appended. */
    method AddRiskAlert(created: Result<StudentRiskAlert, ApiError>) returns (outcome: Outcome<ApiError>)
      modifies this`records
      ensures records == old(records).(studentRiskAlerts := Appended(old(records).studentRiskAlerts, created))
      ensures outcome == OutcomeOf(created)
    {
      records := records.(studentRiskAlerts := Appended(records.studentRiskAlerts, created));
      outcome := OutcomeOf(created);
    }

    /** `updateRiskAlert`: every record with that id becomes the server's copy. */
    method UpdateRiskAlert(id: string, updated: Result<StudentRiskAlert, ApiError>) returns (outcome: Outcome<ApiError>)
      modifies this`records
      ensures records == old(records).(studentRiskAlerts := Replaced(old(records).studentRiskAlerts, StudentRiskAlertId, id, updated))
      ensures outcome == OutcomeOf(updated)
    {
      records := records.(studentRiskAlerts := Replaced(records.studentRiskAlerts, StudentRiskAlertId, id, updated));
      outcome := OutcomeOf(updated);
    }
  }
}
