/** The dialog that creates or edits a student. The form keeps `nivel` in
    step with the chosen semester, and the record sent always has the
    `nivel` of its semester, whatever the form held. */
module StudentForm {
  import opened Wrappers
  import opened Data
  import opened Utils
  import opened Store

  /** The stored `nivel` is the year its semester falls in. */
  predicate NivelAgrees(s: Student) {
    s.nivel == Nivel(s.currentSemester)
  }

  /** The empty form. The fields it leaves out (`id`, `avatar`, the
      withdrawal fields) are "" or absent here. */
  const DefaultForm: Student :=
    Student("", "", "", "", "", "", "", "", 1, 1, StudentStatus.Active, None,
            "", "", "", "", None, None)

  lemma DefaultFormFacts()
    ensures DefaultForm.currentSemester == 1 && DefaultForm.nivel == 1
    ensures DefaultForm.status == StudentStatus.Active
    ensures NivelAgrees(DefaultForm)
  {
  }

  /** `formData.currentSemester || 1`: an unset (zero) semester counts as the
      first. */
  function SemesterOrFirst(semester: int): (s: int)
    ensures semester != 0 ==> s == semester
    ensures semester == 0 ==> s == 1
  {
    if semester == 0 then 1 else semester
  }

  /** `studentData`: the form with its `nivel` recomputed. */
  function StudentData(form: Student): (s: Student)
    ensures s.nivel == Nivel(SemesterOrFirst(form.currentSemester))
    ensures s.(nivel := form.nivel) == form
  {
    form.(nivel := Nivel(SemesterOrFirst(form.currentSemester)))
  }

  /** Whatever `nivel` the form held, the record sent agrees with its
      semester, and an unset semester gives the first year. */
  lemma SubmittedAgrees(form: Student)
    ensures form.currentSemester != 0 ==> NivelAgrees(StudentData(form))
    ensures form.currentSemester == 0 ==> StudentData(form).nivel == 1
    ensures NivelAgrees(form) ==> StudentData(form) == form || form.currentSemester == 0
  {
  }

  /** The choices of the semester select: 1 to 10, each with its year. */
  function SemesterOptions(): (opts: seq<(int, int)>)
    ensures |opts| == 10
    ensures forall i :: 0 <= i < 10 ==> opts[i] == (i + 1, Nivel(i + 1))
  {
    seq(10, i => (i + 1, Nivel(i + 1)))
  }

  /** The options offer years 1 to 5, two semesters each. */
  lemma SemesterOptionYears(k: int)
    requires 1 <= k <= 5
    ensures SemesterOptions()[2 * k - 2] == (2 * k - 1, k)
    ensures SemesterOptions()[2 * k - 1] == (2 * k, k)
    ensures forall i :: 0 <= i < 10 && SemesterOptions()[i].1 == k ==> i == 2 * k - 2 || i == 2 * k - 1
  {
    NivelOfYear(k);
  }

  class StudentFormDialog {
    /** The `student` prop: the record being edited, if any. */
    var editing: Option<Student>
    var formData: Student
    /** The dialog's `open` flag, which `onOpenChange` sets. */
    var open: bool

    /** The effect on `[student, open]`: the form starts as the student being
        edited, or empty. */
    constructor (student: Option<Student>, isOpen: bool)
      ensures editing == student && open == isOpen
      ensures formData == if student.Some? then student.value else DefaultForm
    {
      editing, open := student, isOpen;
      formData := if student.Some? then student.value else DefaultForm;
    }

    /** `handleSemesterChange`. */
    method HandleSemesterChange(semester: int)
      modifies this`formData
      ensures formData == old(formData).(currentSemester := semester, nivel := Nivel(semester))
      ensures NivelAgrees(formData)
    {
      formData := formData.(currentSemester := semester, nivel := Nivel(semester));
    }

    /** `handleSubmit`: editing sends the record under the student's id,
        creating under a new one (`stamp`); the dialog closes only when the
        server accepted it. */
    method HandleSubmit(store: AppStore, stamp: string, server: Student -> Result<Student, ApiError>)
      returns (sent: Student)
      modifies this`open, store`records
      ensures sent == if editing.Some? then StudentData(formData) else StudentData(formData).(id := stamp)
      ensures editing.Some? ==>
                store.records == old(store.records).(students := Replaced(old(store.records).students, StudentId, editing.value.id, server(sent)))
      ensures editing.None? ==>
                store.records == old(store.records).(students := Appended(old(store.records).students, server(sent)))
      ensures open == if server(sent).Success? then false else old(open)
    {
      var outcome;
      if editing.Some? {
        sent := StudentData(formData);
        outcome := store.UpdateStudent(editing.value.id, server(sent));
      } else {
        sent := StudentData(formData).(id := stamp);
        outcome := store.AddStudent(server(sent));
      }
      if outcome.Pass? {
        open := false;
      }
    }
  }
}
