/** The dashboard's "Tareas Próximas" card: the five active assignments
    due first, the subject of each, the number of submissions still pending
    and the badge of its type. */
module PendingTasks {
  import opened Wrappers
  import opened Seqs
  import opened Sorting
  import opened Data
  import opened Store
  import opened Text

  predicate IsOpen(a: Assignment) {
    a.status == AssignmentStatus.Active
  }

  /** Sort key for `new Date(a.dueDate).getTime()`, earliest first. */
  function DueKey(a: Assignment): int {
    DateKey(a.dueDate) as int
  }

  function OpenAssignments(assignments: seq<Assignment>): seq<Assignment> {
    Filter(assignments, IsOpen)
  }

  /** `activeAssignments`: filter, stable sort by due date, first five. */
  function ActiveAssignments(assignments: seq<Assignment>): (r: seq<Assignment>)
    ensures |r| == Min(5, |OpenAssignments(assignments)|)
  {
    Take(SortByKey(OpenAssignments(assignments), DueKey), 5)
  }

  /** Only active assignments of the store are shown, each at most as often
      as it is stored, earliest due first. */
  lemma ActiveAssignmentsFacts(assignments: seq<Assignment>)
    ensures var r := ActiveAssignments(assignments);
      (forall i :: 0 <= i < |r| ==> r[i].status == AssignmentStatus.Active)
      && multiset(r) <= multiset(assignments)
      && (forall i, j :: 0 <= i < j < |r| ==> DateKey(r[i].dueDate) <= DateKey(r[j].dueDate))
  {
    var q := OpenAssignments(assignments);
    var r := ActiveAssignments(assignments);
    TopByKey(q, DueKey, 5);
    forall i | 0 <= i < |r|
      ensures r[i].status == AssignmentStatus.Active
    {
      assert r[i] in multiset(q);
    }
    forall i, j | 0 <= i < j < |r|
      ensures DateKey(r[i].dueDate) <= DateKey(r[j].dueDate)
    {
      assert DueKey(r[i]) <= DueKey(r[j]);
    }
  }

  /** No active assignment left out is due strictly before one shown, and
      among assignments due the same day the first ones stored are shown. */
  lemma ActiveAssignmentsCutoff(assignments: seq<Assignment>, k: int)
    ensures forall i :: (0 <= i < |assignments| && IsOpen(assignments[i])
              && assignments[i] !in ActiveAssignments(assignments)) ==>
              forall j :: 0 <= j < |ActiveAssignments(assignments)| ==>
                DateKey(ActiveAssignments(assignments)[j].dueDate) <= DateKey(assignments[i].dueDate)
    ensures KeyBucket(ActiveAssignments(assignments), DueKey, k) <= KeyBucket(OpenAssignments(assignments), DueKey, k)
  {
    var q := OpenAssignments(assignments);
    var r := ActiveAssignments(assignments);
    TopByKey(q, DueKey, 5);
    BucketOfPrefix(SortByKey(q, DueKey), |r|, DueKey, k);
    SortIsStable(q, DueKey, k);
    forall i | 0 <= i < |assignments| && IsOpen(assignments[i]) && assignments[i] !in r
      ensures forall j :: 0 <= j < |r| ==> DateKey(r[j].dueDate) <= DateKey(assignments[i].dueDate)
    {
      var m :| 0 <= m < |q| && q[m] == assignments[i];
      forall j | 0 <= j < |r|
        ensures DateKey(r[j].dueDate) <= DateKey(assignments[i].dueDate)
      {
        assert DueKey(r[j]) <= DueKey(q[m]);
      }
    }
  }

  /** `getSubjectName`: the subject's name, or "Desconocida" when the subject
      is unknown or its name is empty (`?.name || ...`). */
  function SubjectName(subjects: seq<Subject>, subjectId: string): (name: string)
    ensures SubjectWithId(subjects, subjectId).None? ==> name == "Desconocida"
    ensures SubjectWithId(subjects, subjectId).Some? && SubjectWithId(subjects, subjectId).value.name != "" ==>
              name == SubjectWithId(subjects, subjectId).value.name
    ensures name != "Desconocida" ==>
              exists i :: 0 <= i < |subjects| && subjects[i].id == subjectId && subjects[i].name == name
  {
    match SubjectWithId(subjects, subjectId)
    case Some(s) => if s.name != "" then s.name else "Desconocida"
    case None => "Desconocida"
  }

  predicate ForAssignment(sa: StudentAssignment, assignmentId: string) {
    sa.assignmentId == assignmentId
  }

  /** `getPendingCount`. */
  function PendingCount(studentAssignments: seq<StudentAssignment>, assignmentId: string): (n: nat)
    ensures n <= |studentAssignments|
    ensures n == 0 <==> forall i :: 0 <= i < |studentAssignments| ==>
              !(studentAssignments[i].assignmentId == assignmentId && studentAssignments[i].status == Pending)
  {
    CountZero(studentAssignments, (sa: StudentAssignment) => ForAssignment(sa, assignmentId) && sa.status == Pending);
    Count(studentAssignments, (sa: StudentAssignment) => ForAssignment(sa, assignmentId) && sa.status == Pending)
  }

  /** The pending ones and the others together are all the submissions of
      the assignment: submitted, graded, late and missing ones are not
      pending. */
  lemma PendingCountSplit(studentAssignments: seq<StudentAssignment>, assignmentId: string)
    ensures PendingCount(studentAssignments, assignmentId)
            + Count(studentAssignments, (sa: StudentAssignment) => ForAssignment(sa, assignmentId) && sa.status != Pending)
            == Count(studentAssignments, (sa: StudentAssignment) => ForAssignment(sa, assignmentId))
  {
    var forIt := (sa: StudentAssignment) => ForAssignment(sa, assignmentId);
    var pending := (sa: StudentAssignment) => sa.status == Pending;
    var other := (sa: StudentAssignment) => sa.status != Pending;
    var mine := Filter(studentAssignments, forIt);
    FilterFilter(studentAssignments, forIt, pending,
                 (sa: StudentAssignment) => ForAssignment(sa, assignmentId) && sa.status == Pending);
    FilterFilter(studentAssignments, forIt, other,
                 (sa: StudentAssignment) => ForAssignment(sa, assignmentId) && sa.status != Pending);
    FilterSplit(mine, pending, other);
  }

  /** `getTypeBadge`: the label of a known type, the type itself otherwise. */
  function TypeBadge(assignmentType: string): (badge: string)
    ensures assignmentType == "homework" ==> badge == "Tarea"
    ensures assignmentType == "project" ==> badge == "Proyecto"
    ensures assignmentType == "exam" ==> badge == "Examen"
    ensures assignmentType == "quiz" ==> badge == "Quiz"
    ensures assignmentType == "presentation" ==> badge == "Presentación"
    ensures assignmentType !in {"homework", "project", "exam", "quiz", "presentation"} ==> badge == assignmentType
  {
    if assignmentType == "homework" then "Tarea"
    else if assignmentType == "project" then "Proyecto"
    else if assignmentType == "exam" then "Examen"
    else if assignmentType == "quiz" then "Quiz"
    else if assignmentType == "presentation" then "Presentación"
    else assignmentType
  }

  /** A laboratory has no entry of its own, so its badge reads "lab". */
  lemma LabBadge()
    ensures TypeBadge(AssignmentTypeName(Lab)) == "lab"
  {
  }
}
