/** The careers page ("Carreras"): open to administrators only, with a
    search over the careers, per-career counts, and a form that adds a
    career with an upper-case code. */
module Carreras {
  import opened Wrappers
  import opened Seqs
  import opened Data
  import opened Store
  import opened Text
  import opened Auth
  import opened AuthGuard

  /** The page's own gate: the effect sends visitors to the login page and
      students to their portal, and the page renders only for an
      authenticated administrator. */
  function CareersGate(isAuthenticated: bool, user: Option<User>): (d: Decision)
    ensures d.renders <==> isAuthenticated && user.Some? && user.value.role == Admin
    ensures !isAuthenticated ==> d.redirect == Some("/login")
    ensures isAuthenticated && user.Some? && user.value.role == StudentRole ==> d.redirect == Some("/mi-portal")
    ensures isAuthenticated && (user.None? || user.value.role == Admin) ==> d.redirect.None?
  {
    var redirect := if !isAuthenticated then Some("/login")
                    else if user.Some? && user.value.role == StudentRole then Some("/mi-portal")
                    else None;
    Decision(isAuthenticated && user.Some? && user.value.role == Admin, redirect)
  }

  /** The page agrees with `AuthGuard` under its defaults, except for an
      authenticated session without a user, which the guard lets through
      and the page shows blank without redirecting. */
  lemma GateMatchesGuard(isAuthenticated: bool, user: Option<User>)
    ensures user.Some? ==> CareersGate(isAuthenticated, user) == Guard(isAuthenticated, user, DefaultAllowedRoles, DefaultRedirect)
    ensures isAuthenticated && user.None? ==>
              !CareersGate(isAuthenticated, user).renders && CareersGate(isAuthenticated, user).redirect.None?
              && Guard(isAuthenticated, user, DefaultAllowedRoles, DefaultRedirect).renders
  {
  }

  /** The search test of `filteredCareers`: name, code or faculty contains
      the search text, ignoring case. */
  predicate MatchesSearch(c: Career, search: string) {
    var q := LowerCase(search);
    Contains(LowerCase(c.name), q) || Contains(LowerCase(c.code), q) || Contains(LowerCase(c.faculty), q)
  }

  function FilteredCareers(careers: seq<Career>, search: string): (r: seq<Career>)
    ensures forall i :: 0 <= i < |r| ==> MatchesSearch(r[i], search)
    ensures forall i :: 0 <= i < |careers| && MatchesSearch(careers[i], search) ==> careers[i] in r
  {
    Filter(careers, (c: Career) => MatchesSearch(c, search))
  }

  /** The list keeps the careers' order, and an empty search keeps them all. */
  lemma FilteredCareersFacts(careers: seq<Career>, search: string)
    ensures Subseq(FilteredCareers(careers, search), careers)
    ensures search == "" ==> FilteredCareers(careers, search) == careers
  {
    FilterIsSubseq(careers, (c: Career) => MatchesSearch(c, search));
    if search == "" {
      forall i | 0 <= i < |careers|
        ensures MatchesSearch(careers[i], search)
      {
        EmptyIsContained(LowerCase(careers[i].name));
      }
      FilterKeepsAll(careers, (c: Career) => MatchesSearch(c, search));
    }
  }

  /** `getCareerStats`. */
  datatype CareerCounts = CareerCounts(students: nat, subjects: nat)

  predicate InCareer(s: Student, careerId: string) {
    s.careerId == careerId
  }

  function CareerStats(students: seq<Student>, subjects: seq<Subject>, careerId: string): (r: CareerCounts)
    ensures r.students <= Count(students, (s: Student) => InCareer(s, careerId))
    ensures r.subjects <= |subjects|
  {
    CountMonotone(students, (s: Student) => InCareer(s, careerId) && s.status == StudentStatus.Active,
                  (s: Student) => InCareer(s, careerId));
    CareerCounts(Count(students, (s: Student) => InCareer(s, careerId) && s.status == StudentStatus.Active),
                 Count(subjects, (s: Subject) => s.careerId == careerId))
  }

  /** The student figure counts active students only: together with the
      career's inactive, graduated, withdrawn and suspended students it
      makes all the career's students. */
  lemma CareerStatsSplit(students: seq<Student>, subjects: seq<Subject>, careerId: string)
    ensures CareerStats(students, subjects, careerId).students
            + Count(students, (s: Student) => InCareer(s, careerId) && s.status != StudentStatus.Active)
            == Count(students, (s: Student) => InCareer(s, careerId))
  {
    var inCareer := (s: Student) => InCareer(s, careerId);
    var active := (s: Student) => s.status == StudentStatus.Active;
    var other := (s: Student) => s.status != StudentStatus.Active;
    FilterFilter(students, inCareer, active,
                 (s: Student) => InCareer(s, careerId) && s.status == StudentStatus.Active);
    FilterFilter(students, inCareer, other,
                 (s: Student) => InCareer(s, careerId) && s.status != StudentStatus.Active);
    FilterSplit(Filter(students, inCareer), active, other);
  }

  /** The figures start at zero and each stored record adds one exactly when
      it belongs to the career (and, for a student, is active); this fixes
      both figures for every list. */
  lemma CareerStatsStep(students: seq<Student>, subjects: seq<Subject>, careerId: string,
                        s: Student, t: Subject)
    ensures CareerStats([], [], careerId) == CareerCounts(0, 0)
    ensures CareerStats(students + [s], subjects, careerId).students
            == CareerStats(students, subjects, careerId).students
               + (if s.careerId == careerId && s.status == StudentStatus.Active then 1 else 0)
    ensures CareerStats(students, subjects + [t], careerId).subjects
            == CareerStats(students, subjects, careerId).subjects + (if t.careerId == careerId then 1 else 0)
  {
    FilterConcat(students, [s], (x: Student) => InCareer(x, careerId) && x.status == StudentStatus.Active);
    FilterConcat(subjects, [t], (x: Subject) => x.careerId == careerId);
  }

  /** The empty form; `id` is filled in on submit. */
  const EmptyCareerForm: Career := Career("", "", "", "", 10, "", CareerStatus.Active)

  class CareersPage {
    var search: string
    var isOpen: bool
    var formData: Career

    constructor ()
      ensures search == "" && !isOpen && formData == EmptyCareerForm
    {
      search, isOpen, formData := "", false, EmptyCareerForm;
    }

    /** The code input: `e.target.value.toUpperCase()`. */
    method SetCode(value: string)
      modifies this`formData
      ensures formData == old(formData).(code := UpperCase(value))
      ensures UpperCase(formData.code) == formData.code
    {
      formData := formData.(code := UpperCase(value));
      UpperCaseIdempotent(value);
    }

    /** `handleSubmit`: the form goes to the store under a new id (`stamp`);
        the call is not awaited, so the dialog closes and the form is
        cleared whatever the server answers. */
    method HandleSubmit(store: AppStore, stamp: string, server: Career -> Result<Career, ApiError>)
      returns (sent: Career)
      modifies this`isOpen, this`formData, store`records
      ensures sent == old(formData).(id := stamp)
      ensures store.records == old(store.records).(careers := Appended(old(store.records).careers, server(sent)))
      ensures !isOpen && formData == EmptyCareerForm
    {
      sent := formData.(id := stamp);
      var _ := store.AddCareer(server(sent));
      isOpen := false;
      formData := EmptyCareerForm;
    }
  }
}
