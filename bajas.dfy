/** The withdrawals page ("Gestión de Abandonos"): who can be withdrawn, the
    statistics by reason, type and career, registering a withdrawal (which
    also changes the student's status), reactivation, and the filtered list.
    Unlike the dashboard, this page treats "no period selected" as "every
    period" in its statistics and list. */
module Bajas {
  import opened Wrappers
  import opened Seqs
  import opened Sorting
  import opened Tally
  import opened Data
  import opened Store
  import opened Text
  import opened WithdrawalSummary

  /** A student the form offers: active, with an active enrollment of the
      period (strict period test). */
  predicate Available(s: Student, enrolled: seq<string>) {
    s.status == StudentStatus.Active && s.id in enrolled
  }

  /** `availableStudents`. */
  function AvailableStudents(students: seq<Student>, enrollments: seq<Enrollment>, selected: Option<string>): (r: seq<Student>)
    ensures forall i :: 0 <= i < |r| ==> r[i].status == StudentStatus.Active
    ensures forall i :: 0 <= i < |r| ==>
              exists j :: 0 <= j < |enrollments| && ActiveEnrollment(enrollments[j], selected)
                          && enrollments[j].studentId == r[i].id
    ensures forall i :: (0 <= i < |students| && students[i].status == StudentStatus.Active
                         && exists j :: 0 <= j < |enrollments| && ActiveEnrollment(enrollments[j], selected)
                                        && enrollments[j].studentId == students[i].id) ==> students[i] in r
  {
    var enrolled := EnrolledStudentIds(enrollments, selected);
    var r := Filter(students, (s: Student) => Available(s, enrolled));
    assert forall i :: (0 <= i < |students| && students[i].status == StudentStatus.Active
                        && exists j :: 0 <= j < |enrollments| && ActiveEnrollment(enrollments[j], selected)
                                       && enrollments[j].studentId == students[i].id) ==> Available(students[i], enrolled);
    r
  }

  /** The offered students keep the order of the student list. */
  lemma AvailableKeepsOrder(students: seq<Student>, enrollments: seq<Enrollment>, selected: Option<string>)
    ensures Subseq(AvailableStudents(students, enrollments, selected), students)
  {
    FilterIsSubseq(students, (s: Student) => Available(s, EnrolledStudentIds(enrollments, selected)));
  }

  // ---- Statistics by reason (every period) ----

  /** One slice of the reasons chart. The label table is total, so the
      `|| reason` fallback never applies and the name is the label. */
  datatype ReasonStat = ReasonStat(name: string, value: nat, reason: WithdrawalReason)

  function StatOf(e: (WithdrawalReason, nat)): ReasonStat {
    ReasonStat(ReasonLabel(e.0), e.1, e.0)
  }

  /** Sort key for `(a, b) => b.value - a.value`. */
  function NegValue(r: ReasonStat): int {
    -(r.value as int)
  }

  /** The reason of every withdrawal, in stored order. */
  function AllReasons(withdrawals: seq<Withdrawal>): seq<WithdrawalReason> {
    Map(withdrawals, ReasonOf)
  }

  /** The `forEach` loop that fills `counts` in `reasonStats`. */
  method ReasonStatsCounts(withdrawals: seq<Withdrawal>)
    returns (counts: map<WithdrawalReason, nat>, order: seq<WithdrawalReason>)
    ensures counts == TallyOf(AllReasons(withdrawals))
    ensures order == Distinct(AllReasons(withdrawals))
  {
    counts, order := CountBy(AllReasons(withdrawals));
  }

  /** `reasonStats`: the entries mapped to chart slices, then sorted by
      descending value. */
  function ReasonStats(withdrawals: seq<Withdrawal>): (r: seq<ReasonStat>)
    ensures |r| == |Distinct(AllReasons(withdrawals))|
  {
    SortByKey(Map(Entries(AllReasons(withdrawals)), StatOf), NegValue)
  }

  function SumValues(rs: seq<ReasonStat>): nat
    decreases |rs|
  {
    if rs == [] then 0 else rs[0].value + SumValues(rs[1..])
  }

  /** Sorting the slices is sorting the entries and then labelling them. */
  lemma ReasonStatsSorted(withdrawals: seq<Withdrawal>)
    ensures ReasonStats(withdrawals) == Map(SortByKey(Entries(AllReasons(withdrawals)), NegCount), StatOf)
  {
    SortMap(Entries(AllReasons(withdrawals)), StatOf, NegCount, NegValue);
  }

  /** Each slice names a different reason, and the slices come in
      non-increasing order of value. */
  lemma ReasonStatsOrder(withdrawals: seq<Withdrawal>)
    ensures var r := ReasonStats(withdrawals);
      forall i, j :: 0 <= i < j < |r| ==> r[i].reason != r[j].reason && r[i].value >= r[j].value
  {
    var reasons := AllReasons(withdrawals);
    var es := Entries(reasons);
    var sorted := SortByKey(es, NegCount);
    var r := ReasonStats(withdrawals);
    ReasonStatsSorted(withdrawals);
    SortIsSorted(es, NegCount);
    EntriesAreTally(reasons);
    SubmultisetDistinctKeys(sorted, es);
    forall i, j | 0 <= i < j < |r|
      ensures r[i].reason != r[j].reason && r[i].value >= r[j].value
    {
      assert NegCount(sorted[i]) <= NegCount(sorted[j]);
    }
  }

  /** Each slice carries its reason's label and its number of withdrawals,
      which is at least one. */
  lemma ReasonStatsValues(withdrawals: seq<Withdrawal>)
    ensures var r := ReasonStats(withdrawals);
      forall i :: 0 <= i < |r| ==>
        (r[i].name == ReasonLabel(r[i].reason) && r[i].value >= 1
         && r[i].value == Count(withdrawals, (w: Withdrawal) => w.reason == r[i].reason))
  {
    var es := Entries(AllReasons(withdrawals));
    var sorted := SortByKey(es, NegCount);
    var r := ReasonStats(withdrawals);
    ReasonStatsSorted(withdrawals);
    forall i | 0 <= i < |r|
      ensures r[i].value >= 1 && r[i].value == Count(withdrawals, (w: Withdrawal) => w.reason == r[i].reason)
    {
      assert sorted[i] in multiset(es);
      EntryValue(withdrawals, sorted[i]);
    }
  }

  /** One entry of the reasons tally holds its reason's number of
      withdrawals. */
  lemma EntryValue(withdrawals: seq<Withdrawal>, e: (WithdrawalReason, nat))
    requires e in Entries(AllReasons(withdrawals))
    ensures e.1 >= 1 && e.1 == Count(withdrawals, (w: Withdrawal) => w.reason == e.0)
  {
    var reasons := AllReasons(withdrawals);
    EntriesAreTally(reasons);
    var k :| 0 <= k < |Entries(reasons)| && Entries(reasons)[k] == e;
    OccurrencesOfMap(withdrawals, ReasonOf, e.0, (w: Withdrawal) => w.reason == e.0);
  }

  /** Every reason given for some withdrawal has its slice, whatever its
      period, and the values add up to the number of withdrawals. */
  lemma ReasonStatsCover(withdrawals: seq<Withdrawal>)
    ensures forall i :: 0 <= i < |withdrawals| ==>
              exists j :: 0 <= j < |ReasonStats(withdrawals)| && ReasonStats(withdrawals)[j].reason == withdrawals[i].reason
    ensures SumValues(ReasonStats(withdrawals)) == |withdrawals|
  {
    var reasons := AllReasons(withdrawals);
    var es := Entries(reasons);
    var sorted := SortByKey(es, NegCount);
    var r := ReasonStats(withdrawals);
    ReasonStatsSorted(withdrawals);
    forall i | 0 <= i < |withdrawals|
      ensures exists j :: 0 <= j < |r| && r[j].reason == withdrawals[i].reason
    {
      EntryOfKey(reasons, reasons[i]);
      var e := (reasons[i], Occurrences(reasons, reasons[i]));
      assert e in multiset(sorted);
      var j :| 0 <= j < |sorted| && sorted[j] == e;
      assert r[j].reason == withdrawals[i].reason;
    }
    SortKeepsSum(es, NegCount);
    EntriesSum(reasons);
    SumValuesOfStats(sorted);
  }

  lemma {:induction false} SumValuesOfStats(es: seq<(WithdrawalReason, nat)>)
    ensures SumValues(Map(es, StatOf)) == SumCounts(es)
    decreases |es|
  {
    if es != [] {
      SumValuesOfStats(es[1..]);
      assert Map(es, StatOf)[1..] == Map(es[1..], StatOf);
    }
  }

  // ---- Statistics by type ----

  /** `periodWithdrawals` of this page: no period (or the empty one) means
      every withdrawal. */
  function SelectedWithdrawals(withdrawals: seq<Withdrawal>, selected: Option<string>): (r: seq<Withdrawal>)
    ensures forall i :: 0 <= i < |r| ==> InSelection(r[i].periodId, selected)
    ensures (selected == None || selected == Some("")) ==> r == withdrawals
  {
    var r := Filter(withdrawals, (w: Withdrawal) => InSelection(w.periodId, selected));
    if selected == None || selected == Some("") then
      FilterKeepsAll(withdrawals, (w: Withdrawal) => InSelection(w.periodId, selected)); r
    else r
  }

  datatype TypeStats = TypeStats(temporary: nat, permanent: nat, transfer: nat, academic: nat,
                                 total: nat, highRisk: nat)

  function TypeCount(xs: seq<Withdrawal>, t: WithdrawalType): nat {
    Count(xs, (w: Withdrawal) => w.withdrawalType == t)
  }

  function HighRiskCount(xs: seq<Withdrawal>): nat {
    Count(xs, (w: Withdrawal) => w.riskLevel == RiskLevel.High)
  }

  /** `stats`. */
  function Stats(withdrawals: seq<Withdrawal>, selected: Option<string>): (st: TypeStats)
    ensures st.total == |SelectedWithdrawals(withdrawals, selected)|
    ensures st.highRisk <= st.total
  {
    var xs := SelectedWithdrawals(withdrawals, selected);
    TypeStats(TypeCount(xs, Temporary), TypeCount(xs, Permanent), TypeCount(xs, Transfer),
              TypeCount(xs, Academic), |xs|, HighRiskCount(xs))
  }

  /** The four types partition the withdrawals counted. */
  lemma {:induction false} TypeCountsSum(xs: seq<Withdrawal>)
    ensures TypeCount(xs, Temporary) + TypeCount(xs, Permanent) + TypeCount(xs, Transfer)
            + TypeCount(xs, Academic) == |xs|
    decreases |xs|
  {
    if xs != [] {
      TypeCountsSum(xs[1..]);
    }
  }

  lemma StatsSum(withdrawals: seq<Withdrawal>, selected: Option<string>)
    ensures var st := Stats(withdrawals, selected);
      st.temporary + st.permanent + st.transfer + st.academic == st.total
  {
    TypeCountsSum(SelectedWithdrawals(withdrawals, selected));
  }

  // ---- Statistics by career (every period) ----

  /** `career?.code || "Sin carrera"` for a student. */
  function CareerName(s: Student, careers: seq<Career>): (name: string)
    ensures name != ""
    ensures CareerWithId(careers, s.careerId).None? ==> name == "Sin carrera"
    ensures CareerWithId(careers, s.careerId).Some? && CareerWithId(careers, s.careerId).value.code != "" ==>
              name == CareerWithId(careers, s.careerId).value.code
    ensures CareerWithId(careers, s.careerId).Some? && CareerWithId(careers, s.careerId).value.code == "" ==>
              name == "Sin carrera"
  {
    match CareerWithId(careers, s.careerId)
    case Some(c) => if c.code != "" then c.code else "Sin carrera"
    case None => "Sin carrera"
  }

  /** The name a withdrawal is counted under: its student's career name, or
      nothing when the student is unknown. */
  function CountedCareer(w: Withdrawal, students: seq<Student>, careers: seq<Career>): (r: Option<string>)
    ensures r.None? <==> StudentWithId(students, w.studentId).None?
    ensures r.Some? ==> r.value == CareerName(StudentWithId(students, w.studentId).value, careers)
  {
    match StudentWithId(students, w.studentId)
    case Some(s) => Some(CareerName(s, careers))
    case None => None
  }

  /** `CountedCareer` against fixed lists, as the loop applies it. */
  function CountedFor(students: seq<Student>, careers: seq<Career>): Withdrawal -> Option<string> {
    (w: Withdrawal) => CountedCareer(w, students, careers)
  }

  /** The career name counted for each withdrawal whose student exists, in
      stored order; withdrawals of unknown students count for nothing. */
  function CareerNames(withdrawals: seq<Withdrawal>, students: seq<Student>, careers: seq<Career>): (names: seq<string>)
    ensures |names| <= |withdrawals|
  {
    Keyed(withdrawals, CountedFor(students, careers))
  }

  /** The `forEach` loop of `careerStats`. */
  method CareerStats(withdrawals: seq<Withdrawal>, students: seq<Student>, careers: seq<Career>)
    returns (counts: map<string, nat>, order: seq<string>)
    ensures counts == TallyOf(CareerNames(withdrawals, students, careers))
    ensures order == Distinct(CareerNames(withdrawals, students, careers))
  {
    counts, order := CountKeyed(withdrawals, CountedFor(students, careers));
  }

  /** The entries of `careerStats` name each career once with a count of at
      least one; the counts add up to the number of withdrawals whose student
      exists, so at most to the number of withdrawals. */
  lemma CareerStatsFacts(withdrawals: seq<Withdrawal>, students: seq<Student>, careers: seq<Career>)
    ensures var es := Entries(CareerNames(withdrawals, students, careers));
      DistinctKeys(es) && (forall i :: 0 <= i < |es| ==> es[i].1 >= 1)
      && SumCounts(es) == Count(withdrawals, (w: Withdrawal) => StudentWithId(students, w.studentId).Some?)
      && SumCounts(es) <= |withdrawals|
  {
    var names := CareerNames(withdrawals, students, careers);
    EntriesAreTally(names);
    EntriesSum(names);
    KnownStudentCount(withdrawals, students, careers);
  }

  lemma KnownStudentCount(withdrawals: seq<Withdrawal>, students: seq<Student>, careers: seq<Career>)
    ensures |CareerNames(withdrawals, students, careers)|
         == Count(withdrawals, (w: Withdrawal) => StudentWithId(students, w.studentId).Some?)
  {
    KeyedLength(withdrawals, CountedFor(students, careers),
                  (w: Withdrawal) => StudentWithId(students, w.studentId).Some?);
  }

  // ---- Registering and reactivating ----

  /** The dialog's form. */
  datatype WithdrawalForm = WithdrawalForm(
    studentId: string, periodId: string, date: string, reason: WithdrawalReason,
    withdrawalType: WithdrawalType, notes: string, returnDate: string,
    riskLevel: RiskLevel, followUpNotes: string)

  /** `selectedPeriodId || fallback`. */
  function PeriodOr(selected: Option<string>, fallback: string): (p: string)
    ensures selected.Some? && selected.value != "" ==> p == selected.value
    ensures selected == None || selected == Some("") ==> p == fallback
  {
    if selected.Some? && selected.value != "" then selected.value else fallback
  }

  /** The form when the dialog opens and after each submission. */
  function EmptyForm(selected: Option<string>, today: string): (f: WithdrawalForm)
    ensures f.studentId == "" && f.periodId == PeriodOr(selected, "") && f.date == today
    ensures f.reason == Other && f.withdrawalType == Temporary && f.riskLevel == RiskLevel.Medium
    ensures f.notes == "" && f.returnDate == "" && f.followUpNotes == ""
  {
    WithdrawalForm("", PeriodOr(selected, ""), today, Other, Temporary, "", "", RiskLevel.Medium, "")
  }

  /** The record sent by `addWithdrawal`: the form with a fresh id and the
      selected period in preference to the form's. */
  function NewWithdrawal(form: WithdrawalForm, id: string, selected: Option<string>): (w: Withdrawal)
    ensures w.id == id && w.periodId == PeriodOr(selected, form.periodId)
    ensures w.studentId == form.studentId && w.date == form.date && w.reason == form.reason
    ensures w.withdrawalType == form.withdrawalType && w.riskLevel == form.riskLevel
    ensures w.notes == Some(form.notes) && w.returnDate == Some(form.returnDate)
    ensures w.followUpNotes == Some(form.followUpNotes) && w.subjectIds == None
  {
    Withdrawal(id, form.studentId, PeriodOr(selected, form.periodId), form.date, form.reason,
               form.withdrawalType, None, Some(form.notes), Some(form.returnDate),
               Some(form.followUpNotes), form.riskLevel)
  }

  /** The body of a PATCH to a student; `None` leaves a field out. */
  datatype StudentPatch = StudentPatch(status: StudentStatus, withdrawalDate: Option<string>,
                                       withdrawalReason: Option<string>)

  /** A temporary withdrawal suspends the student; any other withdraws them. */
  function StatusAfter(t: WithdrawalType): (s: StudentStatus)
    ensures s == Suspended <==> t == Temporary
    ensures s == StudentStatus.Withdrawn <==> t != Temporary
  {
    if t == Temporary then Suspended else StudentStatus.Withdrawn
  }

  /** The student update sent when a withdrawal is registered. */
  function RegistrationPatch(form: WithdrawalForm): (p: StudentPatch)
    ensures p.status == StatusAfter(form.withdrawalType)
    ensures p.withdrawalDate == Some(form.date) && p.withdrawalReason == Some(ReasonLabel(form.reason))
  {
    StudentPatch(StatusAfter(form.withdrawalType), Some(form.date), Some(ReasonLabel(form.reason)))
  }

  /** The student update sent on reactivation: only the status. */
  const ReactivationPatch: StudentPatch := StudentPatch(StudentStatus.Active, None, None)

  /** A patch merged into a stored student, as the server applies it. */
  function ApplyStudentPatch(s: Student, p: StudentPatch): (r: Student)
    ensures r.status == p.status && r.id == s.id
    ensures r.withdrawalDate == if p.withdrawalDate.Some? then p.withdrawalDate else s.withdrawalDate
    ensures r.withdrawalReason == if p.withdrawalReason.Some? then p.withdrawalReason else s.withdrawalReason
    ensures r.(status := s.status, withdrawalDate := s.withdrawalDate, withdrawalReason := s.withdrawalReason) == s
  {
    s.(status := p.status,
       withdrawalDate := if p.withdrawalDate.Some? then p.withdrawalDate else s.withdrawalDate,
       withdrawalReason := if p.withdrawalReason.Some? then p.withdrawalReason else s.withdrawalReason)
  }

  /** The first student with an id is the one the lookup finds. */
  lemma FirstStudentUnique(students: seq<Student>, id: string)
    ensures forall i :: 0 <= i < |students| && students[i].id == id
                        && (forall j :: 0 <= j < i ==> students[j].id != id) ==>
                          StudentWithId(students, id) == Some(students[i])
  {
    forall i | 0 <= i < |students| && students[i].id == id && (forall j :: 0 <= j < i ==> students[j].id != id)
      ensures StudentWithId(students, id) == Some(students[i])
    {
      var r := StudentWithId(students, id);
      assert r.Some? && r.value.id == id;
      var k :| 0 <= k < |students| && students[k] == r.value
               && forall j :: 0 <= j < k ==> students[j].id != id;
    }
  }

  /** The "Reactivar" button: a temporary withdrawal whose student is not
      active (an unknown student counts as not active). */
  predicate ReactivateOffered(w: Withdrawal, students: seq<Student>)
    ensures ReactivateOffered(w, students) <==>
              w.withdrawalType == Temporary
              && forall i :: 0 <= i < |students| && students[i].id == w.studentId
                             && (forall j :: 0 <= j < i ==> students[j].id != w.studentId) ==>
                               students[i].status != StudentStatus.Active
  {
    FirstStudentUnique(students, w.studentId);
    w.withdrawalType == Temporary
    && match StudentWithId(students, w.studentId)
       case Some(s) => s.status != StudentStatus.Active
       case None => true
  }

  /** The page's own state. */
  class BajasPage {
    var search: string
    var isOpen: bool
    var filterReason: Option<WithdrawalReason>
    var formData: WithdrawalForm

    /** The initial state: empty search, closed dialog, every reason. */
    constructor (selected: Option<string>, today: string)
      ensures search == "" && !isOpen && filterReason == None
      ensures formData == EmptyForm(selected, today)
    {
      search, isOpen, filterReason := "", false, None;
      formData := EmptyForm(selected, today);
    }

    /** `handleSubmit`: sends the new withdrawal and the student update, then
        closes the dialog and resets the form. Neither request is awaited,
        so the dialog closes whatever the server answers. */
    method HandleSubmit(store: AppStore, id: string, today: string,
                        created: Result<Withdrawal, ApiError>, updated: Result<Student, ApiError>)
      returns (sentWithdrawal: Withdrawal, sentPatch: StudentPatch)
      modifies this, store`records
      ensures sentWithdrawal == NewWithdrawal(old(formData), id, store.selectedPeriodId)
      ensures sentPatch == RegistrationPatch(old(formData))
      ensures store.records == old(store.records).(
                withdrawals := Appended(old(store.records).withdrawals, created),
                students := Replaced(old(store.records).students, StudentId, old(formData).studentId, updated))
      ensures !isOpen && formData == EmptyForm(store.selectedPeriodId, today)
      ensures search == old(search) && filterReason == old(filterReason)
    {
      sentWithdrawal := NewWithdrawal(formData, id, store.selectedPeriodId);
      var _ := store.AddWithdrawal(created);
      sentPatch := RegistrationPatch(formData);
      var _ := store.UpdateStudent(formData.studentId, updated);
      isOpen := false;
      formData := EmptyForm(store.selectedPeriodId, today);
    }

    /** `handleReactivate`: the student becomes active and the withdrawal
        gets today's date as its return date. */
    method HandleReactivate(store: AppStore, studentId: string, withdrawalId: string, today: string,
                            updatedStudent: Result<Student, ApiError>, updatedWithdrawal: Result<Withdrawal, ApiError>)
      returns (sentPatch: StudentPatch, sentReturnDate: string)
      modifies store`records
      ensures sentPatch == ReactivationPatch && sentReturnDate == today
      ensures store.records == old(store.records).(
                students := Replaced(old(store.records).students, StudentId, studentId, updatedStudent),
                withdrawals := Replaced(old(store.records).withdrawals, WithdrawalId, withdrawalId, updatedWithdrawal))
    {
      sentPatch := ReactivationPatch;
      var _ := store.UpdateStudent(studentId, updatedStudent);
      sentReturnDate := today;
      var _ := store.UpdateWithdrawal(withdrawalId, updatedWithdrawal);
    }
  }

  /** After an update under an id, looking that id up finds the new copy. */
  lemma {:induction false} FindAfterReplace(students: seq<Student>, id: string, u: Student)
    requires u.id == id
    requires StudentWithId(students, id).Some?
    ensures StudentWithId(Replaced(students, StudentId, id, Success(u)), id) == Some(u)
  {
    var r := Replaced(students, StudentId, id, Success(u));
    var k :| 0 <= k < |students| && students[k].id == id;
    var m := FindIndex(r, (s: Student) => s.id == id);
    assert r[k].id == id;
    assert m.Some?;
    assert r[m.value] == u;
  }

  /** When the server merges the patches it is sent, registering a temporary
      withdrawal suspends the student and offers reactivation, and
      reactivating makes the student active and withdraws the offer. */
  lemma ReactivationCycle(students: seq<Student>, form: WithdrawalForm, id: string, selected: Option<string>)
    requires form.withdrawalType == Temporary
    requires StudentWithId(students, form.studentId).Some?
    ensures var s := StudentWithId(students, form.studentId).value;
      var suspended := ApplyStudentPatch(s, RegistrationPatch(form));
      var afterRegister := Replaced(students, StudentId, form.studentId, Success(suspended));
      var active := ApplyStudentPatch(suspended, ReactivationPatch);
      var afterReactivate := Replaced(afterRegister, StudentId, form.studentId, Success(active));
      suspended.status == Suspended
      && ReactivateOffered(NewWithdrawal(form, id, selected), afterRegister)
      && active.status == StudentStatus.Active
      && !ReactivateOffered(NewWithdrawal(form, id, selected), afterReactivate)
  {
    var s := StudentWithId(students, form.studentId).value;
    var suspended := ApplyStudentPatch(s, RegistrationPatch(form));
    var afterRegister := Replaced(students, StudentId, form.studentId, Success(suspended));
    FindAfterReplace(students, form.studentId, suspended);
    var active := ApplyStudentPatch(suspended, ReactivationPatch);
    FindAfterReplace(afterRegister, form.studentId, active);
  }

  /** A non-temporary withdrawal is never offered for reactivation. */
  lemma OnlyTemporaryReactivates(w: Withdrawal, students: seq<Student>)
    requires ReactivateOffered(w, students)
    ensures w.withdrawalType == Temporary
  {
  }

  // ---- The list ----

  /** The search box: the student's first or last name, or the reason's
      label, contains the search text, ignoring case. */
  predicate MatchesSearch(w: Withdrawal, students: seq<Student>, search: string) {
    var q := LowerCase(search);
    (match StudentWithId(students, w.studentId)
     case Some(s) => Contains(LowerCase(s.firstName), q) || Contains(LowerCase(s.lastName), q)
     case None => false)
    || Contains(LowerCase(ReasonLabel(w.reason)), q)
  }

  /** The reason filter; `None` is "all". */
  predicate MatchesReason(w: Withdrawal, filterReason: Option<WithdrawalReason>) {
    filterReason == None || filterReason == Some(w.reason)
  }

  /** `filteredWithdrawals`. */
  function FilteredWithdrawals(withdrawals: seq<Withdrawal>, students: seq<Student>, search: string,
                               selected: Option<string>, filterReason: Option<WithdrawalReason>): (r: seq<Withdrawal>)
    ensures forall i :: 0 <= i < |r| ==>
              MatchesSearch(r[i], students, search) && InSelection(r[i].periodId, selected)
              && MatchesReason(r[i], filterReason)
    ensures forall i :: 0 <= i < |withdrawals| && MatchesSearch(withdrawals[i], students, search)
              && InSelection(withdrawals[i].periodId, selected) && MatchesReason(withdrawals[i], filterReason)
              ==> withdrawals[i] in r
  {
    Filter(withdrawals, (w: Withdrawal) => MatchesSearch(w, students, search)
                                          && InSelection(w.periodId, selected) && MatchesReason(w, filterReason))
  }

  /** The list keeps the stored order, and with an empty search, no period
      and every reason it is the whole list. */
  lemma FilteredWithdrawalsFacts(withdrawals: seq<Withdrawal>, students: seq<Student>, search: string,
                                 selected: Option<string>, filterReason: Option<WithdrawalReason>)
    ensures Subseq(FilteredWithdrawals(withdrawals, students, search, selected, filterReason), withdrawals)
    ensures search == "" && selected == None && filterReason == None ==>
              FilteredWithdrawals(withdrawals, students, search, selected, filterReason) == withdrawals
  {
    var p := (w: Withdrawal) => MatchesSearch(w, students, search)
                               && InSelection(w.periodId, selected) && MatchesReason(w, filterReason);
    FilterIsSubseq(withdrawals, p);
    if search == "" && selected == None && filterReason == None {
      forall i | 0 <= i < |withdrawals|
        ensures p(withdrawals[i])
      {
        EmptyIsContained(LowerCase(ReasonLabel(withdrawals[i].reason)));
      }
      FilterKeepsAll(withdrawals, p);
    }
  }

  /** `getTypeBadge`. */
  function TypeLabel(t: WithdrawalType): (badge: string)
    ensures t == Temporary <==> badge == "Temporal"
    ensures t == Permanent <==> badge == "Definitiva"
    ensures t == Transfer <==> badge == "Traslado"
    ensures t == Academic <==> badge == "Académica"
  {
    match t
    case Temporary => "Temporal"
    case Permanent => "Definitiva"
    case Transfer => "Traslado"
    case Academic => "Académica"
  }

  /** `getRiskBadge`; the "N/A" default cannot be reached by a typed level. */
  function RiskLabel(l: RiskLevel): (badge: string)
    ensures l == RiskLevel.High <==> badge == "Alto"
    ensures l == RiskLevel.Medium <==> badge == "Medio"
    ensures l == RiskLevel.Low <==> badge == "Bajo"
  {
    match l
    case High => "Alto"
    case Medium => "Medio"
    case Low => "Bajo"
  }
}
