/** The attendance page ("Control de Asistencias"): the marks of one day and
    their tallies, the students with most absences over all periods, the
    bulk form that records a whole class at once, and the history tab, which
    sorts the stored list in place, newest first. */
module Asistencias {
  import opened Wrappers
  import opened Seqs
  import opened Sorting
  import opened Tally
  import opened Data
  import opened Store
  import opened Text
  import opened AttendanceSummary

  /** `activeStudents`. */
  function ActiveStudents(students: seq<Student>): (r: seq<Student>)
    ensures forall i :: 0 <= i < |r| ==> r[i].status == StudentStatus.Active
    ensures forall i :: 0 <= i < |students| && students[i].status == StudentStatus.Active ==> students[i] in r
  {
    Filter(students, (s: Student) => s.status == StudentStatus.Active)
  }

  /** `todayAttendances`: the marks of the chosen date, whatever their period. */
  function DayAttendances(attendances: seq<Attendance>, date: string): (r: seq<Attendance>)
    ensures forall i :: 0 <= i < |r| ==> r[i].date == date
    ensures forall i :: 0 <= i < |attendances| && attendances[i].date == date ==> attendances[i] in r
  {
    Filter(attendances, (a: Attendance) => a.date == date)
  }

  /** `attendanceStats`: the four tallies of the day add up to its marks. */
  lemma DayStatsSum(attendances: seq<Attendance>, date: string)
    ensures Total(Tallies(DayAttendances(attendances, date))) == |DayAttendances(attendances, date)|
  {
    TalliesSum(DayAttendances(attendances, date));
  }

  // ---- Students with most absences (every period) ----

  /** The student of every absence, in stored order, over all periods. */
  function AllAbsentIds(attendances: seq<Attendance>): seq<string> {
    Map(Filter(attendances, IsAbsent), StudentOf)
  }

  /** The absences of one student over all periods. */
  function AllAbsencesOf(attendances: seq<Attendance>, studentId: string): nat {
    Count(attendances, (a: Attendance) => a.status == Absent && a.studentId == studentId)
  }

  /** The `forEach` loop that fills `absenceCount`. */
  method AllAbsenceCount(attendances: seq<Attendance>) returns (counts: map<string, nat>, order: seq<string>)
    ensures counts == TallyOf(AllAbsentIds(attendances))
    ensures order == Distinct(AllAbsentIds(attendances))
  {
    counts, order := CountBy(AllAbsentIds(attendances));
  }

  lemma AllAbsentOccurrences(attendances: seq<Attendance>, studentId: string)
    ensures Occurrences(AllAbsentIds(attendances), studentId) == AllAbsencesOf(attendances, studentId)
  {
    var ofStudent := (a: Attendance) => a.studentId == studentId;
    var absentOf := (a: Attendance) => a.status == Absent && a.studentId == studentId;
    OccurrencesOfMap(Filter(attendances, IsAbsent), StudentOf, studentId, ofStudent);
    FilterFilter(attendances, IsAbsent, ofStudent, absentOf);
  }

  /** This page counts every period: never fewer absences than the
      dashboard's count for any selected period. */
  lemma AllPeriodsCounted(attendances: seq<Attendance>, selected: Option<string>, studentId: string)
    ensures AbsencesOf(attendances, selected, studentId) <= AllAbsencesOf(attendances, studentId)
  {
    CountMonotone(attendances,
                  (a: Attendance) => InPeriod(a, selected) && a.status == Absent && a.studentId == studentId,
                  (a: Attendance) => a.status == Absent && a.studentId == studentId);
  }

  /** One line of the ranking: `{ student, count }`, where `student` is
      the result of a `find` and may be missing. */
  datatype AbsentStudent = AbsentStudent(student: Option<Student>, count: nat)

  function HasStudent(row: AbsentStudent): bool {
    row.student.Some?
  }

  /** The `.map(find)` step: every entry with its student looked up. */
  function AbsenceRows(top: seq<(string, nat)>, students: seq<Student>): (rows: seq<AbsentStudent>)
    ensures |rows| == |top|
    ensures forall i :: 0 <= i < |rows| ==>
              rows[i] == AbsentStudent(StudentWithId(students, top[i].0), top[i].1)
  {
    Map(top, (e: (string, nat)) => AbsentStudent(StudentWithId(students, e.0), e.1))
  }

  /** The `.filter(item => item.student)` step: the rows whose student exists. */
  function KnownStudents(top: seq<(string, nat)>, students: seq<Student>): (r: seq<AbsentStudent>)
    ensures |r| <= |top|
    ensures forall i :: 0 <= i < |r| ==>
              r[i].student.Some? && r[i].student.value in students
              && (r[i].student.value.id, r[i].count) in top
  {
    var rows := AbsenceRows(top, students);
    assert forall i :: 0 <= i < |rows| ==> rows[i].count == top[i].1;
    Filter(rows, HasStudent)
  }

  /** Every entry with a known student is listed with its count. */
  lemma KnownStudentsComplete(top: seq<(string, nat)>, students: seq<Student>, i: nat)
    requires i < |top| && StudentWithId(students, top[i].0).Some?
    ensures AbsentStudent(StudentWithId(students, top[i].0), top[i].1) in KnownStudents(top, students)
  {
    assert AbsenceRows(top, students)[i] == AbsentStudent(StudentWithId(students, top[i].0), top[i].1);
  }

  /** Every entry with a known student is listed, for all entries at once. */
  lemma KnownStudentsAllComplete(top: seq<(string, nat)>, students: seq<Student>)
    ensures forall i :: 0 <= i < |top| && StudentWithId(students, top[i].0).Some? ==>
              AbsentStudent(StudentWithId(students, top[i].0), top[i].1) in KnownStudents(top, students)
  {
    forall i | 0 <= i < |top| && StudentWithId(students, top[i].0).Some?
      ensures AbsentStudent(StudentWithId(students, top[i].0), top[i].1) in KnownStudents(top, students)
    {
      KnownStudentsComplete(top, students, i);
    }
  }

  /** When every entry's student exists, no row is dropped. */
  lemma KnownStudentsAll(top: seq<(string, nat)>, students: seq<Student>)
    requires forall i :: 0 <= i < |top| ==> StudentWithId(students, top[i].0).Some?
    ensures |KnownStudents(top, students)| == |top|
  {
    var rows := AbsenceRows(top, students);
    FilterKeepsAll(rows, HasStudent);
  }

  /** A known student missing from the rows is missing from the entries. */
  lemma KnownStudentsOmitted(top: seq<(string, nat)>, students: seq<Student>, studentId: string)
    requires StudentWithId(students, studentId).Some?
    requires forall i :: 0 <= i < |KnownStudents(top, students)| ==>
               KnownStudents(top, students)[i].student.value.id != studentId
    ensures forall i :: 0 <= i < |top| ==> top[i].0 != studentId
  {
    forall i | 0 <= i < |top|
      ensures top[i].0 != studentId
    {
      if top[i].0 == studentId {
        KnownStudentsComplete(top, students, i);
        assert false;
      }
    }
  }

  /** Earlier rows have no fewer absences, and two known rows are two
      different students. */
  predicate RankedBefore(a: AbsentStudent, b: AbsentStudent) {
    a.count >= b.count && (a.student.Some? && b.student.Some? ==> a.student.value.id != b.student.value.id)
  }

  /** Dropping rows keeps the ranking order and the distinct students. */
  lemma KnownStudentsOrder(top: seq<(string, nat)>, students: seq<Student>)
    requires forall i, j :: 0 <= i < j < |top| ==> top[i].1 >= top[j].1
    requires DistinctKeys(top)
    ensures var r := KnownStudents(top, students);
      forall i, j :: 0 <= i < j < |r| ==> RankedBefore(r[i], r[j])
  {
    var rows := AbsenceRows(top, students);
    forall i, j | 0 <= i < j < |rows|
      ensures RankedBefore(rows[i], rows[j])
    {
      assert top[i].0 != top[j].0;
    }
    FilterPairwise(rows, HasStudent, RankedBefore);
  }

  /** Entries that carry their key's number of occurrences in xs keep it. */
  lemma KnownStudentsCounts(top: seq<(string, nat)>, students: seq<Student>, xs: seq<string>)
    requires forall i :: 0 <= i < |top| ==> top[i].1 == Occurrences(xs, top[i].0) >= 1
    ensures var r := KnownStudents(top, students);
      forall i :: 0 <= i < |r| ==> r[i].count == Occurrences(xs, r[i].student.value.id) >= 1
  {
    var r := KnownStudents(top, students);
    forall i | 0 <= i < |r|
      ensures r[i].count == Occurrences(xs, r[i].student.value.id) >= 1
    {
      var j :| 0 <= j < |top| && top[j] == (r[i].student.value.id, r[i].count);
    }
  }

  /** The ranking behind `studentsWithMostAbsences`: five entries first. */
  function AbsenceTopFive(attendances: seq<Attendance>): seq<(string, nat)> {
    TopByCount(Entries(AllAbsentIds(attendances)), 5)
  }

  /** `studentsWithMostAbsences`: the five largest counts, and then only the
      entries whose student exists, so possibly fewer than five. */
  function MostAbsences(attendances: seq<Attendance>, students: seq<Student>): (r: seq<AbsentStudent>)
    ensures |r| <= 5
    ensures forall i :: 0 <= i < |r| ==> r[i].student.Some?
    ensures forall i :: 0 <= i < |AbsenceTopFive(attendances)| && StudentWithId(students, AbsenceTopFive(attendances)[i].0).Some? ==>
              AbsentStudent(StudentWithId(students, AbsenceTopFive(attendances)[i].0), AbsenceTopFive(attendances)[i].1) in r
  {
    TopByCountFacts(Entries(AllAbsentIds(attendances)), 5);
    KnownStudentsAllComplete(AbsenceTopFive(attendances), students);
    KnownStudents(AbsenceTopFive(attendances), students)
  }

  /** The ranking has five entries, or one per absent student when there are
      fewer; when every ranked student exists, all of them are listed. */
  lemma MostAbsencesLength(attendances: seq<Attendance>, students: seq<Student>)
    ensures |AbsenceTopFive(attendances)| == Min(5, |Distinct(AllAbsentIds(attendances))|)
    ensures (forall i :: 0 <= i < |AbsenceTopFive(attendances)| ==> StudentWithId(students, AbsenceTopFive(attendances)[i].0).Some?) ==>
              |MostAbsences(attendances, students)| == Min(5, |Distinct(AllAbsentIds(attendances))|)
  {
    var top := AbsenceTopFive(attendances);
    RankingOfTally(AllAbsentIds(attendances), 5);
    if forall i :: 0 <= i < |top| ==> StudentWithId(students, top[i].0).Some? {
      KnownStudentsAll(top, students);
    }
  }

  /** Each listed student exists, is listed once, with their absences over
      all periods (at least one), counts non-increasing. */
  lemma MostAbsencesFacts(attendances: seq<Attendance>, students: seq<Student>)
    ensures var r := MostAbsences(attendances, students);
      forall i :: 0 <= i < |r| ==>
        r[i].student.Some? && r[i].student.value in students && r[i].count >= 1
        && r[i].count == AllAbsencesOf(attendances, r[i].student.value.id)
    ensures var r := MostAbsences(attendances, students);
      forall i, j :: 0 <= i < j < |r| ==>
        r[i].count >= r[j].count && r[i].student.value.id != r[j].student.value.id
  {
    var ids := AllAbsentIds(attendances);
    var r := MostAbsences(attendances, students);
    RankingOfTally(ids, 5);
    KnownStudentsOrder(AbsenceTopFive(attendances), students);
    KnownStudentsCounts(AbsenceTopFive(attendances), students, ids);
    forall i | 0 <= i < |r|
      ensures r[i].count == AllAbsencesOf(attendances, r[i].student.value.id)
    {
      AllAbsentOccurrences(attendances, r[i].student.value.id);
    }
  }

  /** A known student with absences who is not listed has no more absences
      than anyone listed. */
  lemma MostAbsencesCutoff(attendances: seq<Attendance>, students: seq<Student>, studentId: string)
    requires AllAbsencesOf(attendances, studentId) >= 1
    requires StudentWithId(students, studentId).Some?
    requires forall i :: 0 <= i < |MostAbsences(attendances, students)| ==>
               MostAbsences(attendances, students)[i].student.value.id != studentId
    ensures forall j :: 0 <= j < |MostAbsences(attendances, students)| ==>
              AllAbsencesOf(attendances, studentId) <= MostAbsences(attendances, students)[j].count
  {
    var ids := AllAbsentIds(attendances);
    var top := AbsenceTopFive(attendances);
    var r := MostAbsences(attendances, students);
    AllAbsentOccurrences(attendances, studentId);
    assert studentId in ids;
    KnownStudentsOmitted(top, students, studentId);
    RankingOmitsNoLarger(ids, 5, studentId);
    forall j | 0 <= j < |r|
      ensures AllAbsencesOf(attendances, studentId) <= r[j].count
    {
      ListedCountInTop(top, students, j);
    }
  }

  /** A listed row's count is the count of some entry of the ranking. */
  lemma ListedCountInTop(top: seq<(string, nat)>, students: seq<Student>, j: nat)
    requires j < |KnownStudents(top, students)|
    ensures exists k :: 0 <= k < |top| && top[k].1 == KnownStudents(top, students)[j].count
  {
    var r := KnownStudents(top, students);
    var k :| 0 <= k < |top| && top[k] == (r[j].student.value.id, r[j].count);
  }

  /** The status badge of the table: five or more absences are critical,
      three or four call for attention. */
  function AbsenceSeverity(count: int): (badge: string)
    ensures badge == "Crítico" <==> count >= 5
    ensures badge == "Atención" <==> 3 <= count < 5
    ensures badge == "Normal" <==> count < 3
  {
    if count >= 5 then "Crítico" else if count >= 3 then "Atención" else "Normal"
  }

  // ---- The bulk form ----

  /** What the form turns every dictionary entry into. The id is the time
      stamp followed by the student id; the record carries no period. */
  function BulkRecord(stamp: string, subject: string, date: string, e: (string, AttendanceStatus)): Attendance {
    Attendance(stamp + e.0, e.0, subject, None, date, e.1, None)
  }

  /** `newAttendances`: one record per entry of the dictionary, in key order. */
  function BulkRecords(statuses: map<string, AttendanceStatus>, order: seq<string>,
                       stamp: string, subject: string, date: string): (r: seq<Attendance>)
    requires forall i :: 0 <= i < |order| ==> order[i] in statuses
    ensures |r| == |order|
    ensures forall i :: 0 <= i < |r| ==>
              r[i].studentId == order[i] && r[i].status == statuses[order[i]]
              && r[i].subjectId == subject && r[i].date == date && r[i].periodId == None
              && r[i].id == stamp + order[i]
  {
    Map(seq(|order|, i requires 0 <= i < |order| => (order[i], statuses[order[i]])),
        (e: (string, AttendanceStatus)) => BulkRecord(stamp, subject, date, e))
  }

  /** The dictionary `initializeBulkAttendance` builds from the ids it is given. */
  function AllPresent<K>(ids: seq<K>): (m: map<K, AttendanceStatus>)
    ensures m.Keys == set k | k in ids
    ensures forall k :: k in m ==> m[k] == Present
  {
    map k | k in ids :: Present
  }

  function StudentIdOf(s: Student): string {
    s.id
  }

  /** The ids of the active students, in list order. */
  function ActiveIds(students: seq<Student>): seq<string> {
    Map(ActiveStudents(students), StudentIdOf)
  }

  lemma AllPresentSnoc<K>(ids: seq<K>, x: K)
    ensures AllPresent(ids + [x]) == AllPresent(ids)[x := Present]
  {
    var l, r := AllPresent(ids + [x]), AllPresent(ids)[x := Present];
    forall k
      ensures k in l <==> k in r
    {
      assert k in ids + [x] <==> k in ids || k == x;
    }
  }

  /** One student of `initializeBulkAttendance`'s loop, `ys` being the ids
      seen once it is written. */
  lemma InitializeStep<K>(xs: seq<K>, x: K, ys: seq<K>, initial: map<K, AttendanceStatus>, order: seq<K>)
    requires ys == xs + [x]
    requires initial == AllPresent(xs) && order == Distinct(xs)
    ensures initial[x := Present] == AllPresent(ys)
    ensures (if x in initial then order else order + [x]) == Distinct(ys)
  {
    AllPresentSnoc(xs, x);
    DistinctSnoc(xs, x);
  }

  lemma DistinctKeysOf<K>(xs: seq<K>)
    ensures (set k | k in Distinct(xs)) == set k | k in xs
  {
  }

  /** The loop of `initializeBulkAttendance`: every id in turn set to
      "present", recording an id the first time it is written. */
  method InitialStatuses<K(==)>(ids: seq<K>) returns (initial: map<K, AttendanceStatus>, order: seq<K>)
    ensures initial == AllPresent(ids)
    ensures order == Distinct(ids)
  {
    initial, order := map[], [];
    assert ids[..0] == [];
    var i := 0;
    while i < |ids|
      invariant 0 <= i <= |ids|
      invariant initial == AllPresent(ids[..i])
      invariant order == Distinct(ids[..i])
    {
      var id := ids[i];
      assert ids[..i + 1] == ids[..i] + [id];
      InitializeStep(ids[..i], id, ids[..i + 1], initial, order);
      order := if id in initial then order else order + [id];
      initial := initial[id := Present];
      i := i + 1;
      assert initial == AllPresent(ids[..i]);
      assert order == Distinct(ids[..i]);
    }
    assert ids[..i] == ids;
  }

  /** The page's own state. `bulkOrder` is the insertion order of the keys
      of the dictionary `bulkAttendance`; `Object.entries` would list
      integer-like student ids in numeric order instead. */
  class AttendancePage {
    var selectedDate: string
    var selectedSubject: string
    var isOpen: bool
    var bulkStatus: map<string, AttendanceStatus>
    var bulkOrder: seq<string>

    /** Every key is listed once, and only keys are listed. */
    ghost predicate Valid()
      reads this
    {
      NoDuplicates(bulkOrder) && bulkStatus.Keys == set k | k in bulkOrder
    }

    /** Today, no subject, dialog closed, empty dictionary. */
    constructor (today: string)
      ensures Valid()
      ensures selectedDate == today && selectedSubject == "" && !isOpen
      ensures bulkStatus == map[] && bulkOrder == []
    {
      selectedDate, selectedSubject, isOpen := today, "", false;
      bulkStatus, bulkOrder := map[], [];
    }

    /** The status the dialog shows for a student: `|| "present"`. */
    function DisplayedStatus(studentId: string): (status: AttendanceStatus)
      reads this
      ensures studentId in bulkStatus ==> status == bulkStatus[studentId]
      ensures studentId !in bulkStatus ==> status == Present
    {
      if studentId in bulkStatus then bulkStatus[studentId] else Present
    }

    /** `initializeBulkAttendance`: every active student, and only those,
        marked present. */
    method InitializeBulkAttendance(students: seq<Student>)
      modifies this`bulkStatus, this`bulkOrder
      ensures Valid()
      ensures bulkStatus == AllPresent(ActiveIds(students))
      ensures bulkOrder == Distinct(ActiveIds(students))
      ensures forall id :: DisplayedStatus(id) == Present
    {
      var ids := ActiveIds(students);
      var initial, order := InitialStatuses(ids);
      DistinctKeysOf(ids);
      bulkStatus, bulkOrder := initial, order;
    }

    /** A status chosen in the dialog: `{...bulkAttendance, [id]: value}`. */
    method SetBulkStatus(studentId: string, status: AttendanceStatus)
      requires Valid()
      modifies this`bulkStatus, this`bulkOrder
      ensures Valid()
      ensures bulkStatus == old(bulkStatus)[studentId := status]
      ensures bulkOrder == if studentId in old(bulkStatus) then old(bulkOrder) else old(bulkOrder) + [studentId]
      ensures DisplayedStatus(studentId) == status
      ensures forall id :: id != studentId ==> DisplayedStatus(id) == old(DisplayedStatus(id))
    {
      if studentId !in bulkStatus {
        bulkOrder := bulkOrder + [studentId];
      }
      bulkStatus := bulkStatus[studentId := status];
    }

    /** `handleBulkSubmit`: nothing without a subject; otherwise one record
        per entry goes to the store and the form is cleared, whatever the
        server answers. */
    method HandleBulkSubmit(store: AppStore, stamp: string,
                            server: seq<Attendance> -> Result<seq<Attendance>, ApiError>)
      returns (sent: seq<Attendance>)
      requires Valid()
      modifies this, store`records
      ensures Valid()
      ensures old(selectedSubject) == "" ==>
                sent == [] && store.records == old(store.records)
                && selectedSubject == "" && isOpen == old(isOpen)
                && bulkStatus == old(bulkStatus) && bulkOrder == old(bulkOrder)
      ensures old(selectedSubject) != "" ==>
                sent == BulkRecords(old(bulkStatus), old(bulkOrder), stamp, old(selectedSubject), old(selectedDate))
                && (server(sent).Success? ==>
                      store.records == old(store.records).(attendances := old(store.records).attendances + server(sent).value))
                && (server(sent).Failure? ==> store.records == old(store.records))
                && !isOpen && bulkStatus == map[] && bulkOrder == [] && selectedSubject == ""
      ensures selectedDate == old(selectedDate)
    {
      if selectedSubject == "" {
        return [];
      }
      sent := BulkRecords(bulkStatus, bulkOrder, stamp, selectedSubject, selectedDate);
      var _ := store.BulkAddAttendance(server(sent));
      isOpen := false;
      bulkStatus, bulkOrder := map[], [];
      selectedSubject := "";
    }
  }

  /** Every active student is among the ids the dialog is opened with. */
  lemma ActiveStudentListed(students: seq<Student>, i: nat)
    requires i < |students| && students[i].status == StudentStatus.Active
    ensures students[i].id in Distinct(ActiveIds(students))
  {
    var active := ActiveStudents(students);
    var k :| 0 <= k < |active| && active[k] == students[i];
    assert ActiveIds(students)[k] == students[i].id;
  }

  /** Submitting straight after opening the dialog records every active
      student exactly once, as present, for the chosen subject and date. */
  lemma SubmitAfterInitialize(students: seq<Student>, stamp: string, subject: string, date: string)
    ensures forall i :: 0 <= i < |Distinct(ActiveIds(students))| ==> Distinct(ActiveIds(students))[i] in AllPresent(ActiveIds(students))
    ensures var r := BulkRecords(AllPresent(ActiveIds(students)), Distinct(ActiveIds(students)), stamp, subject, date);
      (forall i :: 0 <= i < |r| ==> r[i].status == Present && r[i].subjectId == subject && r[i].date == date)
      && NoDuplicates(Map(r, StudentOf))
      && (forall i :: 0 <= i < |students| && students[i].status == StudentStatus.Active ==>
            students[i].id in Map(r, StudentOf))
  {
    var ids := ActiveIds(students);
    InitialRecords(ids, stamp, subject, date);
    forall i | 0 <= i < |students| && students[i].status == StudentStatus.Active
      ensures students[i].id in Distinct(ids)
    {
      ActiveStudentListed(students, i);
    }
  }

  /** The records of a freshly initialised dictionary: one per id, in first
      occurrence order, all "present". */
  lemma InitialRecords(ids: seq<string>, stamp: string, subject: string, date: string)
    ensures forall i :: 0 <= i < |Distinct(ids)| ==> Distinct(ids)[i] in AllPresent(ids)
    ensures var r := BulkRecords(AllPresent(ids), Distinct(ids), stamp, subject, date);
      (forall i :: 0 <= i < |r| ==> r[i].status == Present && r[i].subjectId == subject && r[i].date == date)
      && Map(r, StudentOf) == Distinct(ids)
  {
    var d := Distinct(ids);
    var r := BulkRecords(AllPresent(ids), d, stamp, subject, date);
    assert Map(r, StudentOf) == d;
  }

  // ---- The history tab ----

  /** Sort key for `(a, b) => date(b) - date(a)`: newest first. */
  function NewestFirst(a: Attendance): int {
    -(DateKey(a.date) as int)
  }

  /** The history tab calls `attendances.sort(...)` on the store's own
      array, so rendering it reorders the stored list. */
  method SortHistory(store: AppStore)
    modifies store`records
    ensures store.records == old(store.records).(attendances := SortByKey(old(store.records).attendances, NewestFirst))
  {
    store.records := store.records.(attendances := SortByKey(store.records.attendances, NewestFirst));
  }

  /** The sorted history is a permutation of the marks, newest date first,
      and marks of the same date keep their stored order. */
  lemma HistoryOrder(attendances: seq<Attendance>, date: string)
    ensures var r := SortByKey(attendances, NewestFirst);
      multiset(r) == multiset(attendances)
      && (forall i, j :: 0 <= i < j < |r| ==> DateKey(r[i].date) >= DateKey(r[j].date))
      && KeyBucket(r, NewestFirst, -(DateKey(date) as int)) == KeyBucket(attendances, NewestFirst, -(DateKey(date) as int))
  {
    var r := SortByKey(attendances, NewestFirst);
    SortIsSorted(attendances, NewestFirst);
    SortIsStable(attendances, NewestFirst, -(DateKey(date) as int));
    forall i, j | 0 <= i < j < |r|
      ensures DateKey(r[i].date) >= DateKey(r[j].date)
    {
      assert NewestFirst(r[i]) <= NewestFirst(r[j]);
    }
  }
}
