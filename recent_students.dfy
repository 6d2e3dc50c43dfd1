/** The dashboard's "Estudiantes Inscritos" card: the first five students,
    in list order, who have an active enrollment in the selected period, and
    the badge of each one's status. */
module RecentStudents {
  import opened Wrappers
  import opened Seqs
  import opened Data
  import opened Store

  /** `enrolledStudentIds.includes(s.id)`. */
  predicate IsEnrolled(s: Student, enrollments: seq<Enrollment>, selected: Option<string>) {
    s.id in EnrolledStudentIds(enrollments, selected)
  }

  /** Every enrolled student, in list order, before the cut. */
  function EnrolledStudents(students: seq<Student>, enrollments: seq<Enrollment>, selected: Option<string>): seq<Student> {
    Filter(students, (s: Student) => IsEnrolled(s, enrollments, selected))
  }

  /** `recentStudents`. */
  function RecentStudentList(students: seq<Student>, enrollments: seq<Enrollment>, selected: Option<string>): (r: seq<Student>)
    ensures |r| <= 5
    ensures forall i :: 0 <= i < |r| ==> r[i] in students
    ensures forall i :: 0 <= i < |r| ==>
              exists k :: 0 <= k < |enrollments| && ActiveEnrollment(enrollments[k], selected)
                          && enrollments[k].studentId == r[i].id
  {
    var all := EnrolledStudents(students, enrollments, selected);
    var r := Take(all, 5);
    assert forall i :: 0 <= i < |r| ==> r[i] == all[i];
    r
  }

  /** The card keeps the students' order, and lists a student at most as
      often as the list holds it, however many enrollments they have. */
  lemma RecentKeepsOrder(students: seq<Student>, enrollments: seq<Enrollment>, selected: Option<string>)
    ensures Subseq(RecentStudentList(students, enrollments, selected), students)
    ensures multiset(RecentStudentList(students, enrollments, selected)) <= multiset(students)
  {
    var all := EnrolledStudents(students, enrollments, selected);
    var r := RecentStudentList(students, enrollments, selected);
    FilterIsSubseq(students, (s: Student) => IsEnrolled(s, enrollments, selected));
    PrefixIsSubseq(all, |r|);
    SubseqTransitive(r, all, students);
    PrefixMultiset(all, |r|);
  }

  /** When at most five students are enrolled, every one of them is listed,
      once per occurrence in the list and whatever their status. */
  lemma RecentShowsAllEnrolled(students: seq<Student>, enrollments: seq<Enrollment>, selected: Option<string>, s: Student)
    requires |EnrolledStudents(students, enrollments, selected)| <= 5
    requires IsEnrolled(s, enrollments, selected)
    ensures multiset(RecentStudentList(students, enrollments, selected))[s] == multiset(students)[s]
  {
    FilterMultiplicity(students, (t: Student) => IsEnrolled(t, enrollments, selected), s);
  }

  /** Otherwise the card shows exactly five students, the first five enrolled. */
  lemma RecentIsFirstFive(students: seq<Student>, enrollments: seq<Enrollment>, selected: Option<string>)
    requires |EnrolledStudents(students, enrollments, selected)| > 5
    ensures |RecentStudentList(students, enrollments, selected)| == 5
    ensures RecentStudentList(students, enrollments, selected) == EnrolledStudents(students, enrollments, selected)[..5]
  {
  }

  /** The `status` value each student status is stored as. */
  function StatusName(s: StudentStatus): string {
    match s
    case Active => "active"
    case Inactive => "inactive"
    case Graduated => "graduated"
    case Withdrawn => "withdrawn"
    case Suspended => "suspended"
  }

  /** `getStatusBadge`: the label of a known status, "Inactivo" for any other
      status name. Keys that every JavaScript object inherits, such as
      "constructor", are not status names and are not modelled. */
  function StatusBadge(status: string): (badge: string)
    ensures status == "active" ==> badge == "Activo"
    ensures status == "suspended" ==> badge == "Suspendido"
    ensures status == "withdrawn" ==> badge == "Retirado"
    ensures status == "graduated" ==> badge == "Graduado"
    ensures status !in {"active", "suspended", "withdrawn", "graduated"} ==> badge == "Inactivo"
  {
    if status == "active" then "Activo"
    else if status == "suspended" then "Suspendido"
    else if status == "withdrawn" then "Retirado"
    else if status == "inactive" then "Inactivo"
    else if status == "graduated" then "Graduado"
    else "Inactivo"
  }

  /** Distinct statuses get distinct badges. */
  lemma StatusBadgeInjective(a: StudentStatus, b: StudentStatus)
    requires StatusBadge(StatusName(a)) == StatusBadge(StatusName(b))
    ensures a == b
  {
  }
}
