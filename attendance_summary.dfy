/** The "Resumen de Asistencia" card: the attendance records of the selected
    period, their status tallies, and the three students with most absences. */
module AttendanceSummary {
  import opened Wrappers
  import opened Seqs
  import opened Tally
  import opened Data
  import opened Store

  /** `a.periodId === selectedPeriodId`: a record without a period matches
      no selection, not even the empty one. */
  predicate InPeriod(a: Attendance, selected: Option<string>) {
    a.periodId.Some? && SamePeriod(a.periodId.value, selected)
  }

  /** `periodAttendances`. */
  function PeriodAttendances(attendances: seq<Attendance>, selected: Option<string>): (r: seq<Attendance>)
    ensures forall i :: 0 <= i < |r| ==> InPeriod(r[i], selected)
    ensures forall i :: 0 <= i < |attendances| && InPeriod(attendances[i], selected) ==> attendances[i] in r
    ensures selected == None ==> r == []
  {
    var r := Filter(attendances, (a: Attendance) => InPeriod(a, selected));
    if selected == None then FilterDropsAll(attendances, (a: Attendance) => InPeriod(a, selected)); r else r
  }

  /** The four status counts shown on the card. */
  datatype StatusTally = StatusTally(present: nat, absent: nat, late: nat, excused: nat)

  function StatusCount(xs: seq<Attendance>, s: AttendanceStatus): nat {
    Count(xs, (a: Attendance) => a.status == s)
  }

  /** `stats`: one count per status. */
  function Tallies(xs: seq<Attendance>): (t: StatusTally)
    ensures t.present == StatusCount(xs, Present) && t.absent == StatusCount(xs, Absent)
    ensures t.late == StatusCount(xs, AttendanceStatus.Late) && t.excused == StatusCount(xs, Excused)
  {
    StatusTally(StatusCount(xs, Present), StatusCount(xs, Absent),
                StatusCount(xs, AttendanceStatus.Late), StatusCount(xs, Excused))
  }

  function Total(t: StatusTally): nat {
    t.present + t.absent + t.late + t.excused
  }

  /** Every record has exactly one of the four statuses, so the tallies add
      up to the number of records. */
  lemma {:induction false} TalliesSum(xs: seq<Attendance>)
    ensures Total(Tallies(xs)) == |xs|
    decreases |xs|
  {
    if xs != [] {
      TalliesSum(xs[1..]);
    }
  }

  predicate IsAbsent(a: Attendance) {
    a.status == Absent
  }

  function StudentOf(a: Attendance): string {
    a.studentId
  }

  /** The student ids of the period's absences, one per record, in order. */
  function AbsentIds(attendances: seq<Attendance>, selected: Option<string>): seq<string> {
    Map(Filter(PeriodAttendances(attendances, selected), IsAbsent), StudentOf)
  }

  /** The absences of one student in the selected period, counted directly. */
  function AbsencesOf(attendances: seq<Attendance>, selected: Option<string>, studentId: string): nat {
    Count(attendances, (a: Attendance) => InPeriod(a, selected) && a.status == Absent && a.studentId == studentId)
  }

  /** The `forEach` loop that fills `absenceCount`, with the key order
      `Object.entries` later reads it in. */
  method AbsenceCount(attendances: seq<Attendance>, selected: Option<string>)
    returns (counts: map<string, nat>, order: seq<string>)
    ensures counts == TallyOf(AbsentIds(attendances, selected))
    ensures order == Distinct(AbsentIds(attendances, selected))
  {
    counts, order := CountBy(AbsentIds(attendances, selected));
  }

  /** The dictionary holds exactly the students with an absence in the
      period, each with the number of those absences. */
  lemma AbsenceCountMeaning(attendances: seq<Attendance>, selected: Option<string>, studentId: string)
    ensures studentId in TallyOf(AbsentIds(attendances, selected))
        <==> AbsencesOf(attendances, selected, studentId) >= 1
    ensures studentId in TallyOf(AbsentIds(attendances, selected)) ==>
              TallyOf(AbsentIds(attendances, selected))[studentId] == AbsencesOf(attendances, selected, studentId)
  {
    var ids := AbsentIds(attendances, selected);
    AbsentIdOccurrences(attendances, selected, studentId);
    if studentId in ids {
      var j :| 0 <= j < |ids| && ids[j] == studentId;
    }
  }

  /** A student's id occurs among the absent ids once per absence. */
  lemma AbsentIdOccurrences(attendances: seq<Attendance>, selected: Option<string>, studentId: string)
    ensures Occurrences(AbsentIds(attendances, selected), studentId) == AbsencesOf(attendances, selected, studentId)
  {
    var period := PeriodAttendances(attendances, selected);
    var absent := Filter(period, IsAbsent);
    var ofStudent := (a: Attendance) => a.studentId == studentId;
    var absentOf := (a: Attendance) => a.status == Absent && a.studentId == studentId;
    OccurrencesOfMap(absent, StudentOf, studentId, ofStudent);
    FilterFilter(period, IsAbsent, ofStudent, absentOf);
    FilterFilter(attendances, (a: Attendance) => InPeriod(a, selected), absentOf,
                 (a: Attendance) => InPeriod(a, selected) && a.status == Absent && a.studentId == studentId);
  }

  /** The ranking behind `topAbsent`: the dictionary's entries by descending
      count, first three. */
  function AbsenceRanking(attendances: seq<Attendance>, selected: Option<string>): seq<(string, nat)> {
    TopByCount(Entries(AbsentIds(attendances, selected)), 3)
  }

  /** At most three students, each once, each with their true absence count
      (at least one), counts non-increasing. */
  lemma AbsenceRankingFacts(attendances: seq<Attendance>, selected: Option<string>)
    ensures var r := AbsenceRanking(attendances, selected);
      |r| == Min(3, |Distinct(AbsentIds(attendances, selected))|) && DistinctKeys(r)
      && (forall i :: 0 <= i < |r| ==> r[i].1 >= 1 && r[i].1 == AbsencesOf(attendances, selected, r[i].0))
      && (forall i, j :: 0 <= i < j < |r| ==> r[i].1 >= r[j].1)
  {
    var r := AbsenceRanking(attendances, selected);
    RankingOfTally(AbsentIds(attendances, selected), 3);
    forall i | 0 <= i < |r|
      ensures r[i].1 == AbsencesOf(attendances, selected, r[i].0)
    {
      AbsentIdOccurrences(attendances, selected, r[i].0);
    }
  }

  /** No student left out of the ranking has more absences than any student
      listed. */
  lemma AbsenceRankingCutoff(attendances: seq<Attendance>, selected: Option<string>, studentId: string)
    requires AbsencesOf(attendances, selected, studentId) >= 1
    requires forall i :: 0 <= i < |AbsenceRanking(attendances, selected)| ==>
               AbsenceRanking(attendances, selected)[i].0 != studentId
    ensures forall j :: 0 <= j < |AbsenceRanking(attendances, selected)| ==>
              AbsencesOf(attendances, selected, studentId) <= AbsenceRanking(attendances, selected)[j].1
  {
    var ids := AbsentIds(attendances, selected);
    AbsentIdOccurrences(attendances, selected, studentId);
    assert studentId in ids;
    assert AbsenceRanking(attendances, selected) == TopByCount(Entries(ids), 3);
    RankingOmitsNoLarger(ids, 3, studentId);
  }

  /** One line of the card. */
  datatype AbsentRow = AbsentRow(name: string, career: string, count: nat)

  /** A ranking entry shown with the student's name and career code; an
      unknown student is "Desconocido" with no career. */
  function RowFor(students: seq<Student>, careers: seq<Career>, e: (string, nat)): (row: AbsentRow)
    ensures row.count == e.1
    ensures StudentWithId(students, e.0).None? ==> row.name == "Desconocido" && row.career == ""
    ensures StudentWithId(students, e.0).Some? ==>
              var s := StudentWithId(students, e.0).value;
              row.name == s.firstName + " " + s.lastName
              && row.career == match CareerWithId(careers, s.careerId)
                               case Some(c) => c.code
                               case None => ""
  {
    match StudentWithId(students, e.0)
    case None => AbsentRow("Desconocido", "", e.1)
    case Some(s) =>
      var career := CareerWithId(careers, s.careerId);
      AbsentRow(s.firstName + " " + s.lastName, if career.Some? then career.value.code else "", e.1)
  }

  /** `topAbsent`. */
  function TopAbsent(attendances: seq<Attendance>, students: seq<Student>, careers: seq<Career>,
                     selected: Option<string>): (rows: seq<AbsentRow>)
    ensures |rows| == |AbsenceRanking(attendances, selected)|
    ensures forall i :: 0 <= i < |rows| ==>
              rows[i] == RowFor(students, careers, AbsenceRanking(attendances, selected)[i])
  {
    Map(AbsenceRanking(attendances, selected), (e: (string, nat)) => RowFor(students, careers, e))
  }

  /** The card computes `topAbsent` from the dictionary the loop fills. */
  method TopAbsentFromLoop(attendances: seq<Attendance>, students: seq<Student>, careers: seq<Career>,
                           selected: Option<string>) returns (rows: seq<AbsentRow>)
    ensures rows == TopAbsent(attendances, students, careers, selected)
  {
    var counts, order := AbsenceCount(attendances, selected);
    EntriesOfTally(AbsentIds(attendances, selected));
    var entries := ObjectEntries(counts, order);
    rows := Map(TopByCount(entries, 3), (e: (string, nat)) => RowFor(students, careers, e));
  }
}
