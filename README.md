# University dashboard — a Dafny model

This project models the core of a university administration dashboard, a
Next.js application with a Zustand store. It covers:

- **The records.** Careers, academic periods ("gestiones"), students,
  teachers, subjects, enrollments, attendance marks, grades, withdrawals
  ("bajas"), risk alerts, assignments with their submissions, and courses.
  Each is a datatype, and the seed records the application ships with are
  constants.
- **The store.** It is the class `Store.AppStore`. Its thirteen lists form
  one `records` snapshot, and every action rewrites exactly one list with the
  server's answer. The REST server is not part of this model. Each action
  takes the server's reply as a parameter: a `Result` holding the created or
  updated record, or an error. An action whose request fails leaves its list
  untouched.
- **The session.** `AuthStore.AuthState` holds the logged-in user.
  `AuthGuard.Guard` is the render-or-redirect decision, and `Auth` does the
  login lookup over the seed accounts.
- **The dashboard panels.** These are stats cards, the attendance summary,
  academic alerts, the withdrawal summary, recent students, pending tasks and
  the grade table. Each is a function of the store's lists and the selected
  period. Every `filter`, `sort`, `slice` and `find` has its own contract.
  Rankings are proved against exact counts: each row's count is the true
  count, rows are in non-increasing order, and anything left out counts no
  more than what is shown.
- **The pages.** These are attendance (`Asistencias`), withdrawals (`Bajas`),
  careers (`Carreras`) and the student form. Their local state is a class.
  Each handler is a method proved against the functions that say what it
  sends and what the store becomes.

Shared building blocks:

- `Seqs`: the array operations, with their facts.
- `Sorting`: a stable insertion sort by an integer key. It stands for
  JavaScript's stable `Array.prototype.sort` with a numeric comparator.
- `Tally`: `Record<string, number>` counting loops, with keys enumerated in
  first-insertion order (JavaScript puts integer-like keys first, in
  numeric order; see "Left out").
- `Text`: ASCII case mapping, `includes`, and date keys.
- `Utils`: the year-of-study computation and its labels.

The module `SeedFacts` proves properties of the seed data:

- the ids in each collection are unique;
- every reference resolves;
- every `nivel` agrees with its semester;
- each withdrawn student carries the status and label its withdrawal implies;
- there is one active period, which is the default one;
- the default period has exactly the seed's attendance figures.

Dates enter as parameters (`today`), and so do `Date.now()` identifiers
(`stamp`, `id`).

## Model

| member | source | states |
|---|---|---|
| Utils.Nivel | lib/utils.ts:8-10 | the year of study is the least n with semester <= 2n, i.e. `Math.ceil(semester / 2)` for every integer |
| Utils.NivelOfYear | lib/utils.ts:8-10 | semesters 2k-1 and 2k both fall in year k |
| Utils.NivelSteps | lib/utils.ts:8-10 | two more semesters is one more year, and the year never decreases as the semester grows |
| Utils.NivelPositive | lib/utils.ts:8-10 | every semester from 1 on is in year 1 or later |
| Utils.YearNamesDistinct | lib/utils.ts:13-20 | the six year names are pairwise different |
| Utils.YearNameInitial | lib/utils.ts:13-20 | no year name starts with "A", so none can be mistaken for the fallback label |
| Utils.NatToDecimal | lib/utils.ts:21 | the numeral of a natural number is nonempty, digits only, and has no leading zero |
| Utils.DecimalRoundTrip | lib/utils.ts:21 | reading the numeral back gives the number |
| Utils.IntToDecimalInjective | lib/utils.ts:21 | different integers print differently, negative ones included |
| Utils.NegativeNumerals | lib/utils.ts:21 | two negative integers with the same numeral are equal |
| Utils.MinusTail | lib/utils.ts:21 | a negative numeral is "-" followed by the numeral of its magnitude |
| Utils.NoMinusSign | lib/utils.ts:21 | a non-negative numeral does not start with "-" |
| Utils.NivelLabel | lib/utils.ts:12-22 | years 1 to 6 get their table name; any other year gets "Año " followed by its numeral |
| Utils.NivelLabelInjective | lib/utils.ts:12-22 | different years never share a label, table names and fallback labels included |
| Utils.NivelFromSemester | lib/utils.ts:24-33 | the year is the semester's year of study, and the label is that year's label |
| Text.LowerChar | lib/auth.ts:73 | `toLowerCase` on one ASCII character: capitals move down by 32, everything else is kept, and the result is never a capital |
| Text.UpperChar | app/carreras/page.tsx:125 | `toUpperCase` on one ASCII character: small letters move up by 32, everything else is kept, and the result is never a small letter |
| Text.LowerCase | app/carreras/page.tsx:50-53 | the string keeps its length and each character is lowered |
| Text.UpperCase | app/carreras/page.tsx:125 | the string keeps its length and each character is raised |
| Text.LowerCaseIgnoresCase | lib/auth.ts:73 | lowering is idempotent and forgets capitals: a string and its upper-case form lower to the same string |
| Text.UpperCaseIdempotent | app/carreras/page.tsx:125 | raising twice is raising once, and the result has no small letters |
| Text.ContainsAt | app/carreras/page.tsx:50-53 | `includes` holds exactly when the substring occurs at some offset |
| Text.EmptyIsContained | app/carreras/page.tsx:50-53 | the empty query is contained in every string, so an empty search keeps every record |
| Text.IsoDateKey | app/asistencias/page.tsx:337 | the sort key of a YYYY-MM-DD date is year*10000 + month*100 + day, so keys order dates in time |
| Data.ReasonLabelsDistinct | lib/data.ts:139-149 | every withdrawal reason has a nonempty label and no two reasons share one |
| Auth.AuthenticateIn | lib/auth.ts:72-75 | the answer is the first account whose e-mail equals the given one up to case and whose password is exactly equal; none when no account matches |
| Auth.AuthenticateUser | lib/auth.ts:72-75 | over the built-in accounts: a found account has the given password and the same e-mail up to case; none exactly when no built-in account matches |
| Auth.OwnCredentialsFindOwnAccount | lib/auth.ts:72-75 | when the e-mails start with pairwise different heads of small letters, each account's own e-mail and password log in as that account |
| Auth.SeedAccountLogsIn | lib/auth.ts:14-75 | every built-in account logs in with its own e-mail and password and is the account found |
| Auth.UnknownPasswordFails | lib/auth.ts:14-75 | a password that no built-in account has never logs in, whatever the e-mail |
| Auth.AuthenticateIgnoresCase | lib/auth.ts:73 | typing the e-mail in capitals or in small letters gives the same login result |
| Auth.UserByStudentIdIn | lib/auth.ts:77-79 | the answer is the first account that names the student, and none exactly when no account does |
| Auth.UserByStudentId | lib/auth.ts:77-79 | over the built-in accounts: a found account names the student; none exactly when no built-in account does |
| Auth.FirstWithStudentId | lib/auth.ts:77-79 | an account naming a student no earlier account names is the one found by that id |
| Auth.SeedStudentFound | lib/auth.ts:14-79 | each built-in student account is the one found by its own student id |
| Auth.AdminNotFoundByStudentId | lib/auth.ts:77-79 | the administrator's account is never found by a student id; whatever is found is a student account |
| Auth.SeedStudentAccounts | lib/auth.ts:14-70 | in the seed, an account names a student exactly when its role is student |
| Auth.SeedOneAdmin | lib/auth.ts:14-70 | the seed has exactly one administrator |
| Auth.SeedEmailsDistinct | lib/auth.ts:14-70 | no two seed accounts share an e-mail, so a login finds at most one account by e-mail |
| AuthStore.AuthState.constructor | lib/auth-store.ts:17-18 | a new session has no user and is not authenticated |
| AuthStore.AuthState.Login | lib/auth-store.ts:19 | after login the user is set and the session is authenticated, keeping the invariant "authenticated exactly when there is a user" |
| AuthStore.AuthState.Logout | lib/auth-store.ts:20 | after logout there is no user and the session is not authenticated |
| AuthStore.AuthState.IsAdmin | lib/auth-store.ts:29-32 | only a logged-in user can be an administrator |
| AuthStore.AuthState.IsStudent | lib/auth-store.ts:34-37 | only a logged-in user can be a student |
| AuthStore.AuthState.CurrentStudentId | lib/auth-store.ts:39-42 | the id is the user's own nonempty student id; there is none without a user, without a student id, or with an empty one |
| AuthStore.SessionRoles | lib/auth-store.ts:29-37 | a logged-out session has no role and no student id; a logged-in session is either administrator or student, never both; for a logged-in user, administrator holds exactly when the user's role is admin and student exactly when it is student |
| AuthStore.SeedStudentSession | lib/auth-store.ts:34-42 | logging in as any seed student account gives a student session whose student id is that account's |
| AuthGuard.Guard | components/auth/auth-guard.tsx:16-44 | an unauthenticated visitor is sent to `redirectTo` and sees nothing; a user whose role is not allowed is sent to /mi-portal (students) or / (others) and sees nothing; everyone else sees the page and is not redirected |
| AuthGuard.RenderOrRedirect | components/auth/auth-guard.tsx:20-44 | the guard either renders or redirects, never both and never neither |
| AuthGuard.DefaultGuard | components/auth/auth-guard.tsx:16 | with the default roles, an administrator sees the page, a student goes to /mi-portal, and a visitor goes to /login |
| Store.ResolvePatch | lib/store.ts:400-404 | the patch marks the alert resolved, dated today, with the given notes |
| Store.ApplyAlertPatch | lib/store.ts:399-408 | merging the patch changes only the three resolution fields; the alert's identity, student, period, type, severity, description and date are kept |
| Store.EnrolledStudentIds | components/dashboard/stats-cards.tsx:34-37 | one id per active enrollment of the selected period, and an id occurs exactly when some such enrollment names that student |
| Store.StudentWithId | components/dashboard/attendance-summary.tsx:32 | returns the first stored student with that id, and none exactly when no student has it |
| Store.CareerWithId | components/dashboard/attendance-summary.tsx:33 | returns the first stored career with that id, and none exactly when no career has it |
| Store.SubjectWithId | components/dashboard/pending-tasks.tsx:17 | returns the first stored subject with that id, and none exactly when no subject has it |
| Store.OutcomeOf | lib/store.ts:185-188 | an action's promise resolves exactly when the server answered with a record, and it rejects with the server's error otherwise |
| Store.Appended | lib/store.ts:185-188 | on success the old list is kept as a prefix, followed by exactly the created record; on failure the list is unchanged |
| Store.Replaced | lib/store.ts:189-194 | same length; on success each record with the id becomes the server's copy and every other record is kept in place; on failure nothing changes |
| Store.Removed | lib/store.ts:195-200 | on failure nothing changes; on success no record with the id remains, every other record is kept, and exactly the matching records are gone |
| Store.RemovedKeepsOrder | lib/store.ts:195-200 | deletion keeps the surviving records in their original order |
| Store.NoMatchNoChange | lib/store.ts:189-200 | updating or deleting an id that no record has changes nothing |
| Store.RemoveAfterAdd | lib/store.ts:185-200 | deleting a record just added leaves what deleting that id would have left before the add |
| Store.RemoveAfterUpdate | lib/store.ts:189-200 | deleting an updated record leaves what deleting it without the update would have left |
| Store.RemoveIdempotent | lib/store.ts:195-200 | deleting the same id twice is deleting it once |
| Store.AppStore.constructor | lib/store.ts:110-125 | the store starts with every list empty, period "2025-1" selected, not loading and no error |
| Store.AppStore.Initialize | lib/store.ts:128-180 | when every fetch succeeds the lists are exactly what the server returned and the error is cleared; when a fetch fails the lists stay as they were and the error holds the failure's message; loading ends either way and the selected period is kept |
| Store.AppStore.SetSelectedPeriod | lib/store.ts:182 | the selected period becomes the given one and nothing else changes |
| Store.AppStore.BulkAddAttendance | lib/store.ts:291-294 | on success the server's records are appended to the attendance list in their order; on failure nothing changes |
| Store.AppStore.ResolveRiskAlert | lib/store.ts:399-408 | sends the resolving patch dated today with the notes, and stores the server's answer in place of every alert with that id |
| Store.AppStore.AddStudent | lib/store.ts:185-188 | only `students` changes: the server's created record is appended on success, the list is untouched on failure, and the outcome reports which |
| Store.AppStore.UpdateStudent | lib/store.ts:189-194 | only `students` changes: every record with the id becomes the server's copy on success, nothing changes on failure |
| Store.AppStore.DeleteStudent | lib/store.ts:195-200 | only `students` changes: once the server confirms, every record with the id is dropped and the rest keep their order; on failure nothing changes |
| Store.AppStore.AddCourse | lib/store.ts:203-206 | only `courses` changes: the server's created record is appended on success, the list is untouched on failure, and the outcome reports which |
| Store.AppStore.UpdateCourse | lib/store.ts:207-212 | only `courses` changes: every record with the id becomes the server's copy on success, nothing changes on failure |
| Store.AppStore.DeleteCourse | lib/store.ts:213-218 | only `courses` changes: once the server confirms, every record with the id is dropped and the rest keep their order; on failure nothing changes |
| Store.AppStore.AddGrade | lib/store.ts:221-224 | only `grades` changes: the server's created record is appended on success, the list is untouched on failure, and the outcome reports which |
| Store.AppStore.UpdateGrade | lib/store.ts:225-230 | only `grades` changes: every record with the id becomes the server's copy on success, nothing changes on failure |
| Store.AppStore.DeleteGrade | lib/store.ts:231-236 | only `grades` changes: once the server confirms, every record with the id is dropped and the rest keep their order; on failure nothing changes |
| Store.AppStore.AddTeacher | lib/store.ts:239-242 | only `teachers` changes: the server's created record is appended on success, the list is untouched on failure, and the outcome reports which |
| Store.AppStore.UpdateTeacher | lib/store.ts:243-248 | only `teachers` changes: every record with the id becomes the server's copy on success, nothing changes on failure |
| Store.AppStore.DeleteTeacher | lib/store.ts:249-254 | only `teachers` changes: once the server confirms, every record with the id is dropped and the rest keep their order; on failure nothing changes |
| Store.AppStore.AddSubject | lib/store.ts:257-260 | only `subjects` changes: the server's created record is appended on success, the list is untouched on failure, and the outcome reports which |
| Store.AppStore.UpdateSubject | lib/store.ts:261-266 | only `subjects` changes: every record with the id becomes the server's copy on success, nothing changes on failure |
| Store.AppStore.DeleteSubject | lib/store.ts:267-272 | only `subjects` changes: once the server confirms, every record with the id is dropped and the rest keep their order; on failure nothing changes |
| Store.AppStore.AddAttendance | lib/store.ts:275-278 | only `attendances` changes: the server's created record is appended on success, the list is untouched on failure, and the outcome reports which |
| Store.AppStore.UpdateAttendance | lib/store.ts:279-284 | only `attendances` changes: every record with the id becomes the server's copy on success, nothing changes on failure |
| Store.AppStore.DeleteAttendance | lib/store.ts:285-290 | only `attendances` changes: once the server confirms, every record with the id is dropped and the rest keep their order; on failure nothing changes |
| Store.AppStore.AddAssignment | lib/store.ts:297-300 | only `assignments` changes: the server's created record is appended on success, the list is untouched on failure, and the outcome reports which |
| Store.AppStore.UpdateAssignment | lib/store.ts:301-306 | only `assignments` changes: every record with the id becomes the server's copy on success, nothing changes on failure |
| Store.AppStore.DeleteAssignment | lib/store.ts:307-312 | only `assignments` changes: once the server confirms, every record with the id is dropped and the rest keep their order; on failure nothing changes |
| Store.AppStore.AddStudentAssignment | lib/store.ts:315-318 | only `studentAssignments` changes: the server's created record is appended on success, the list is untouched on failure, and the outcome reports which |
| Store.AppStore.UpdateStudentAssignment | lib/store.ts:319-324 | only `studentAssignments` changes: every record with the id becomes the server's copy on success, nothing changes on failure |
| Store.AppStore.DeleteStudentAssignment | lib/store.ts:325-330 | only `studentAssignments` changes: once the server confirms, every record with the id is dropped and the rest keep their order; on failure nothing changes |
| Store.AppStore.AddWithdrawal | lib/store.ts:333-336 | only `withdrawals` changes: the server's created record is appended on success, the list is untouched on failure, and the outcome reports which |
| Store.AppStore.UpdateWithdrawal | lib/store.ts:337-342 | only `withdrawals` changes: every record with the id becomes the server's copy on success, nothing changes on failure |
| Store.AppStore.DeleteWithdrawal | lib/store.ts:343-348 | only `withdrawals` changes: once the server confirms, every record with the id is dropped and the rest keep their order; on failure nothing changes |
| Store.AppStore.AddAcademicPeriod | lib/store.ts:350-353 | only `academicPeriods` changes: the server's created record is appended on success, the list is untouched on failure, and the outcome reports which |
| Store.AppStore.UpdateAcademicPeriod | lib/store.ts:354-359 | only `academicPeriods` changes: every record with the id becomes the server's copy on success, nothing changes on failure |
| Store.AppStore.AddCareer | lib/store.ts:361-364 | only `careers` changes: the server's created record is appended on success, the list is untouched on failure, and the outcome reports which |
| Store.AppStore.UpdateCareer | lib/store.ts:365-370 | only `careers` changes: every record with the id becomes the server's copy on success, nothing changes on failure |
| Store.AppStore.AddEnrollment | lib/store.ts:372-375 | only `enrollments` changes: the server's created record is appended on success, the list is untouched on failure, and the outcome reports which |
| Store.AppStore.UpdateEnrollment | lib/store.ts:376-381 | only `enrollments` changes: every record with the id becomes the server's copy on success, nothing changes on failure |
| Store.AppStore.DeleteEnrollment | lib/store.ts:382-387 | only `enrollments` changes: once the server confirms, every record with the id is dropped and the rest keep their order; on failure nothing changes |
| Store.AppStore.AddRiskAlert | lib/store.ts:389-392 | only `studentRiskAlerts` changes: the server's created record is appended on success, the list is untouched on failure, and the outcome reports which |
| Store.AppStore.UpdateRiskAlert | lib/store.ts:393-398 | only `studentRiskAlerts` changes: every record with the id becomes the server's copy on success, nothing changes on failure |
| StatsCards.RoundHalfUp | components/dashboard/stats-cards.tsx:51 | `Math.round(n / d)` for non-negative values: the integer nearest n/d, with halves rounded up |
| StatsCards.RoundHalfAway | components/dashboard/stats-cards.tsx:45 | `toFixed(0)` of n/d: the integer nearest n/d, with halves rounded away from zero, of the same sign as n |
| StatsCards.EnrolledCount | components/dashboard/stats-cards.tsx:34-37 | the card's figure is the number of active enrollments in the selected period, one per enrollment |
| StatsCards.EnrolledCountPerEnrollment | components/dashboard/stats-cards.tsx:34-37 | one more active enrollment of the period raises the figure by exactly one, even for a student already counted |
| StatsCards.PeriodGrades | components/dashboard/stats-cards.tsx:43 | exactly the grades of the selected period are kept |
| StatsCards.AverageGrade | components/dashboard/stats-cards.tsx:44-45 | 0 when the period has no grades; otherwise the rounded mean of the period's grades |
| StatsCards.AverageGradeBounds | components/dashboard/stats-cards.tsx:44-45 | if every grade lies in [lo, hi], then so does the rounded average |
| StatsCards.SumBounds | components/dashboard/stats-cards.tsx:45 | the sum of n grades in [lo, hi] lies in [n*lo, n*hi] |
| StatsCards.RoundedBetween | components/dashboard/stats-cards.tsx:45 | rounding a quotient that lies in [lo, hi] stays in [lo, hi] |
| StatsCards.GradeLabel | components/dashboard/stats-cards.tsx:88-89 | the caption is "Aprobatorio" exactly from 70 up and "Bajo" exactly below 70 |
| StatsCards.AttendanceRate | components/dashboard/stats-cards.tsx:48-52 | the rate is between 0 and 100; it is 0 when the period has no marks, and otherwise it is the percentage of "present" marks rounded to the nearest integer |
| StatsCards.AttendanceLabel | components/dashboard/stats-cards.tsx:96-97 | the caption is "Normal" exactly from 80 up and "Baja" exactly below |
| StatsCards.ActiveAlertCount | components/dashboard/stats-cards.tsx:55 | the card counts the unresolved alerts of the selected period |
| StatsCards.AlertCardMatchesPanel | components/dashboard/stats-cards.tsx:55 | the alerts panel shows min(5, the card's count) alerts, so the two agree |
| StatsCards.AlertLabel | components/dashboard/stats-cards.tsx:112 | "Sin alertas" exactly at zero, "Requieren atención" exactly above |
| StatsCards.PeriodWithdrawalCount | components/dashboard/stats-cards.tsx:58 | the card's figure is at most the number of withdrawals, and zero exactly when no withdrawal is of the selected period |
| StatsCards.TemporaryWithdrawalCount | components/dashboard/stats-cards.tsx:120 | the caption is at most the number of withdrawals, and zero exactly when no withdrawal is temporary |
| StatsCards.TemporaryCaptionIgnoresPeriod | components/dashboard/stats-cards.tsx:58-120 | for any list of withdrawals, appending a temporary withdrawal of another period adds one to the "temporales" caption and leaves the card's figure unchanged |
| StatsCards.ActiveStudentCount | components/dashboard/stats-cards.tsx:39 | at most the number of students; zero exactly when no student is active, and all of them exactly when every student is |
| StatsCards.ActiveTeacherCount | components/dashboard/stats-cards.tsx:40 | at most the number of teachers; zero exactly when no teacher is active, and all of them exactly when every teacher is |
| StatsCards.TeachersOnLeave | components/dashboard/stats-cards.tsx:75 | at most the number of teachers, and zero exactly when no teacher is on leave |
| StatsCards.TeacherFiguresDisjoint | components/dashboard/stats-cards.tsx:40-75 | the active teachers and the teachers on leave together are at most all the teachers |
| StatsCards.ActiveCareerCount | components/dashboard/stats-cards.tsx:79 | at most the number of careers; zero exactly when no career is active, and all of them exactly when every career is |
| StatsCards.NoPeriodZeroFigures | components/dashboard/stats-cards.tsx:34-58 | with no period selected, every period-scoped figure (enrolled, grades, average, marks, rate, alerts, withdrawals) is zero |
| AttendanceSummary.PeriodAttendances | components/dashboard/attendance-summary.tsx:11 | exactly the marks recorded for the selected period are kept; marks without a period never match, and nothing matches when no period is selected |
| AttendanceSummary.Tallies | components/dashboard/attendance-summary.tsx:13-18 | each of the four figures counts the marks with that status |
| AttendanceSummary.TalliesSum | components/dashboard/attendance-summary.tsx:13-18 | the four figures add up to the number of marks, since every mark has exactly one status |
| AttendanceSummary.AbsenceCount | components/dashboard/attendance-summary.tsx:21-26 | the `forEach` loop's dictionary is the tally of the period's absent students, with keys in first-absence order |
| AttendanceSummary.AbsenceCountMeaning | components/dashboard/attendance-summary.tsx:21-26 | a student has an entry exactly when they have an absence in the period, and the entry is that number of absences |
| AttendanceSummary.AbsentIdOccurrences | components/dashboard/attendance-summary.tsx:22-23 | a student occurs among the absent ids once per absence in the period |
| AttendanceSummary.AbsenceRankingFacts | components/dashboard/attendance-summary.tsx:28-30 | the ranking lists min(3, number of students with an absence in the period) students, each once, each with their true absence count (at least one), in non-increasing order |
| AttendanceSummary.AbsenceRankingCutoff | components/dashboard/attendance-summary.tsx:29-30 | a student with absences who is not in the ranking has no more absences than anyone shown |
| AttendanceSummary.RowFor | components/dashboard/attendance-summary.tsx:31-38 | a known student is shown with their full name and career code (or "" without a career); an unknown one as "Desconocido" with no career; the count is the ranking's |
| AttendanceSummary.TopAbsent | components/dashboard/attendance-summary.tsx:28-39 | one row per ranking entry, in ranking order |
| AttendanceSummary.TopAbsentFromLoop | components/dashboard/attendance-summary.tsx:21-39 | the loop-built rows equal the specification's rows |
| AcademicAlerts.SeverityRank | components/dashboard/academic-alerts.tsx:14-15 | the severity order puts critical first (0), then high, medium, low (3) |
| AcademicAlerts.SeverityRankInjective | components/dashboard/academic-alerts.tsx:14 | different severities have different ranks |
| AcademicAlerts.ActiveAlerts | components/dashboard/academic-alerts.tsx:11-17 | the panel shows at most five alerts |
| AcademicAlerts.ActiveAlertsAreOpen | components/dashboard/academic-alerts.tsx:12 | every alert shown is unresolved, is in the selected period, and is a stored alert shown no more often than it is stored |
| AcademicAlerts.ActiveAlertsByRank | components/dashboard/academic-alerts.tsx:13-17 | the panel is the first five of the open alerts grouped critical, high, medium, low, each group in stored order (the sort is stable) |
| AcademicAlerts.ActiveAlertsOrder | components/dashboard/academic-alerts.tsx:13-17 | the panel is ordered by severity, keeps stored order within a severity, and an open alert left out is no more severe than any alert shown |
| AcademicAlerts.NoPeriodNoAlerts | components/dashboard/academic-alerts.tsx:12 | with no period selected the panel is empty |
| AcademicAlerts.ResolvedAlertLeavesPanel | lib/store.ts:399-408 | once the server's resolved copy replaces an alert, that alert is no longer shown |
| AcademicAlerts.SeverityBadge | components/dashboard/academic-alerts.tsx:31-42 | each severity has its own label: Crítico, Alto, Medio, Bajo |
| AcademicAlerts.AlertTypeBadge | components/dashboard/academic-alerts.tsx:44-55 | attendance, grades and dropout-risk alerts have their own labels; behaviour alerts, which have no case, fall back to "Otro" |
| WithdrawalSummary.PeriodWithdrawals | components/dashboard/withdrawal-summary.tsx:14 | exactly the withdrawals of the selected period, and none when no period is selected |
| WithdrawalSummary.ReasonCounts | components/dashboard/withdrawal-summary.tsx:17-20 | the loop's dictionary is the tally of the period's reasons, with keys in first-occurrence order |
| WithdrawalSummary.ReasonOccurrences | components/dashboard/withdrawal-summary.tsx:17-20 | each reason's count is the number of period withdrawals given for it |
| WithdrawalSummary.ReasonCountsSum | components/dashboard/withdrawal-summary.tsx:17-20 | the entries have distinct reasons and counts of at least one, and the counts add up to the period's withdrawals |
| WithdrawalSummary.TopReasons | components/dashboard/withdrawal-summary.tsx:22-29 | min(4, number of distinct reasons in the period) rows, each labelled with its reason's label |
| WithdrawalSummary.TopReasonsFacts | components/dashboard/withdrawal-summary.tsx:22-29 | the rows name distinct reasons in non-increasing count order, each with its true count of at least one |
| WithdrawalSummary.TopReasonsCutoff | components/dashboard/withdrawal-summary.tsx:23-24 | a reason given in the period but left out of the top four occurs no more often than any reason shown |
| WithdrawalSummary.RecentWithdrawals | components/dashboard/withdrawal-summary.tsx:43 | the first three of the period's withdrawals in stored order, or all of them if there are fewer than three |
| WithdrawalSummary.Badge | components/dashboard/withdrawal-summary.tsx:90-91 | "Temporal" exactly for temporary withdrawals and "Definitiva" for every other type; destructive exactly for high risk |
| WithdrawalSummary.IconFor | components/dashboard/withdrawal-summary.tsx:31-41 | the help icon exactly for the four reasons the icon table does not list |
| RecentStudents.RecentStudentList | components/dashboard/recent-students.tsx:12-16 | at most five stored students, each with an active enrollment in the selected period |
| RecentStudents.RecentKeepsOrder | components/dashboard/recent-students.tsx:16 | the list keeps the stored order and shows no student more often than stored |
| RecentStudents.RecentShowsAllEnrolled | components/dashboard/recent-students.tsx:16 | when at most five students are enrolled, every one of them is shown |
| RecentStudents.RecentIsFirstFive | components/dashboard/recent-students.tsx:16 | when more than five are enrolled, exactly the first five enrolled students are shown |
| RecentStudents.StatusBadge | components/dashboard/recent-students.tsx:18-28 | active, suspended, withdrawn and graduated have their own labels; "inactive" and any other status name get "Inactivo" |
| RecentStudents.StatusBadgeInjective | components/dashboard/recent-students.tsx:18-28 | different student statuses never share a label |
| PendingTasks.ActiveAssignments | components/dashboard/pending-tasks.tsx:11-14 | the panel shows min(5, number of active assignments) assignments |
| PendingTasks.ActiveAssignmentsFacts | components/dashboard/pending-tasks.tsx:11-14 | every assignment shown is active and stored, and they appear earliest due date first |
| PendingTasks.ActiveAssignmentsCutoff | components/dashboard/pending-tasks.tsx:13-14 | an active assignment left out is due no earlier than any assignment shown, and the sort keeps stored order among equal due dates |
| PendingTasks.SubjectName | components/dashboard/pending-tasks.tsx:16-18 | the name of the subject with that id, or "Desconocida" when there is none |
| PendingTasks.PendingCount | components/dashboard/pending-tasks.tsx:20-22 | at most the number of submissions, and zero exactly when no submission of the assignment is pending |
| PendingTasks.PendingCountSplit | components/dashboard/pending-tasks.tsx:20-22 | the pending submissions and the other submissions of an assignment together are all its submissions |
| PendingTasks.TypeBadge | components/dashboard/pending-tasks.tsx:24-34 | the five listed types have their Spanish label; any other type is shown as its own name |
| PendingTasks.LabBadge | components/dashboard/pending-tasks.tsx:24-34 | the "lab" type, which the table does not list, is shown as "lab" |
| GradeTable.CourseOf | components/grades/grade-table.tsx:23-35 | the stored course with the grade's course id, and none when no course has that id |
| GradeTable.FilteredGrades | components/grades/grade-table.tsx:23-35 | exactly the grades whose student's first or last name, or course name, contains the search ignoring case, and whose course is the selected one ("all" accepts every course) |
| GradeTable.FilteredGradesFacts | components/grades/grade-table.tsx:23-35 | the table keeps the stored order; every row has a known student or course; with no search and "all" courses, every grade with a known student or course is listed |
| GradeTable.GradeColorOf | components/grades/grade-table.tsx:37-42 | success from 9 up, primary from 7 to below 9, warning from 5 to below 7, destructive below 5 |
| GradeTable.GradeColorMonotone | components/grades/grade-table.tsx:37-42 | a higher grade never gets a worse colour |
| Asistencias.ActiveStudents | app/asistencias/page.tsx:26 | exactly the active students are kept |
| Asistencias.DayAttendances | app/asistencias/page.tsx:28-30 | exactly the marks of the selected date are kept |
| Asistencias.DayStatsSum | app/asistencias/page.tsx:32-40 | the day's four status figures add up to the day's marks |
| Asistencias.AllAbsenceCount | app/asistencias/page.tsx:44-49 | the loop's dictionary tallies the absent students over all periods, with keys in first-absence order |
| Asistencias.AllAbsentOccurrences | app/asistencias/page.tsx:45-49 | a student occurs among the absent ids once per absence, over all periods |
| Asistencias.AllPeriodsCounted | app/asistencias/page.tsx:45-46 | the page counts at least as many absences for a student as the dashboard's period view does, because the page ignores the period |
| Asistencias.AbsenceRows | app/asistencias/page.tsx:54-57 | one row per ranking entry, each with its student looked up (possibly none) |
| Asistencias.KnownStudents | app/asistencias/page.tsx:58 | only rows with a found student survive, each a stored student paired with its ranking entry |
| Asistencias.KnownStudentsComplete | app/asistencias/page.tsx:58 | a ranking entry whose student exists is kept |
| Asistencias.KnownStudentsOmitted | app/asistencias/page.tsx:58 | a known student missing from the rows was not in the ranking either |
| Asistencias.KnownStudentsOrder | app/asistencias/page.tsx:51-58 | dropping rows keeps the non-increasing counts and the distinct students |
| Asistencias.KnownStudentsCounts | app/asistencias/page.tsx:54-58 | every surviving row keeps its student's true count |
| Asistencias.MostAbsences | app/asistencias/page.tsx:43-59 | at most five rows, each with a found student, and every top-five entry whose student exists is listed with its count |
| Asistencias.MostAbsencesLength | app/asistencias/page.tsx:43-59 | the top five has min(5, number of students with an absence) entries, and when each of their students exists all of them are listed |
| Asistencias.KnownStudentsAllComplete | app/asistencias/page.tsx:55-58 | every entry with a known student is listed with its count |
| Asistencias.KnownStudentsAll | app/asistencias/page.tsx:55-58 | when every entry's student exists, no row is dropped |
| Asistencias.MostAbsencesFacts | app/asistencias/page.tsx:43-59 | each row is a stored student with their true total of absences (at least one); rows have distinct students in non-increasing count order |
| Asistencias.MostAbsencesCutoff | app/asistencias/page.tsx:51-58 | a known student with absences who is not listed has no more absences than anyone listed |
| Asistencias.AbsenceSeverity | app/asistencias/page.tsx:397-403 | "Crítico" exactly from 5 absences, "Atención" exactly from 3 to 4, "Normal" exactly below 3 |
| Asistencias.BulkRecords | app/asistencias/page.tsx:64-70 | one record per dictionary key, in the dictionary's insertion order (not JavaScript's numeric order for integer-like ids, see Left out), with that key's student and status, the chosen subject and date, no period, and the id stamp+student |
| Asistencias.InitialStatuses | app/asistencias/page.tsx:78-84 | the loop builds exactly the all-present dictionary of the ids and their first-occurrence key order |
| Asistencias.AllPresent | app/asistencias/page.tsx:78-84 | the dictionary has exactly the given ids as keys, all "present" |
| Asistencias.AttendancePage.constructor | app/asistencias/page.tsx:21-24 | the page starts on the given date, with no subject, the dialog closed and an empty dictionary |
| Asistencias.AttendancePage.DisplayedStatus | app/asistencias/page.tsx:248 | a student with an entry shows that entry's status, and any other student shows present |
| Asistencias.AttendancePage.InitializeBulkAttendance | app/asistencias/page.tsx:78-84 | the dictionary marks every active student present, with keys in first-occurrence order, so every student shows present |
| Asistencias.AttendancePage.SetBulkStatus | app/asistencias/page.tsx:249-253 | one student's status is set and shown, every other student shows what it showed before, and a new key goes to the end of the key order |
| Asistencias.AttendancePage.HandleBulkSubmit | app/asistencias/page.tsx:61-76 | with no subject nothing happens; otherwise the records built from the dictionary are sent, the server's records are appended on success, and the dialog, dictionary and subject are reset |
| Asistencias.ActiveStudentListed | app/asistencias/page.tsx:80-82 | every active student gets a key |
| Asistencias.SubmitAfterInitialize | app/asistencias/page.tsx:64-84 | submitting right after initialisation sends one "present" record per active student, for the chosen subject and date, no student twice |
| Asistencias.SortHistory | app/asistencias/page.tsx:336-337 | the history tab sorts the store's own attendance list in place, newest first |
| Asistencias.HistoryOrder | app/asistencias/page.tsx:337 | the sorted history is a permutation of the marks, newest first, with marks of the same date in their stored order |
| Bajas.AvailableStudents | app/bajas/page.tsx:97-102 | exactly the active students that have an active enrollment in the selected period |
| Bajas.AvailableKeepsOrder | app/bajas/page.tsx:101 | the list keeps the stored order |
| Bajas.ReasonStatsCounts | app/bajas/page.tsx:105-108 | the loop's dictionary tallies the reasons of all withdrawals, with keys in first-occurrence order |
| Bajas.ReasonStats | app/bajas/page.tsx:104-117 | one row per distinct reason |
| Bajas.ReasonStatsSorted | app/bajas/page.tsx:109-116 | the rows are the dictionary's entries stably sorted by count, largest first |
| Bajas.ReasonStatsOrder | app/bajas/page.tsx:116 | the rows have distinct reasons in non-increasing count order |
| Bajas.ReasonStatsValues | app/bajas/page.tsx:110-115 | each row carries its reason's label and the true number of withdrawals given for it |
| Bajas.ReasonStatsCover | app/bajas/page.tsx:104-117 | every withdrawal's reason has a row, and the rows' values add up to the number of withdrawals |
| Bajas.SelectedWithdrawals | app/bajas/page.tsx:121 | the withdrawals of the selection; with no period (or the empty one) every withdrawal |
| Bajas.Stats | app/bajas/page.tsx:120-130 | the total is the number of selected withdrawals, and the high-risk figure is at most the total |
| Bajas.TypeCountsSum | app/bajas/page.tsx:123-126 | the four type counts add up to the number of withdrawals |
| Bajas.StatsSum | app/bajas/page.tsx:122-127 | the four type figures add up to the total |
| Bajas.CareerName | app/bajas/page.tsx:137-138 | the student's career code when the career is known and its code is nonempty, "Sin carrera" when the career is unknown; "Sin carrera" also when the known career's code is empty; never empty |
| Bajas.CountedCareer | app/bajas/page.tsx:135-140 | a withdrawal is counted exactly when its student exists, under that student's career name |
| Bajas.CareerNames | app/bajas/page.tsx:134-141 | at most one name per withdrawal |
| Bajas.CareerStats | app/bajas/page.tsx:132-143 | the loop's dictionary tallies the career names, with keys in first-occurrence order |
| Bajas.CareerStatsFacts | app/bajas/page.tsx:132-143 | the entries have distinct names and counts of at least one, and the counts add up to the withdrawals whose student exists |
| Bajas.KnownStudentCount | app/bajas/page.tsx:134-141 | one name per withdrawal whose student exists |
| Bajas.PeriodOr | app/bajas/page.tsx:151 | `selectedPeriodId \|\| fallback`: the selected period unless it is absent or empty |
| Bajas.EmptyForm | app/bajas/page.tsx:82-92 | the empty form: no student, the selected period, today's date, reason "other", temporary, medium risk, empty notes |
| Bajas.NewWithdrawal | app/bajas/page.tsx:148-152 | the record sent keeps the form's fields, takes the new id, and takes the selected period over the form's |
| Bajas.StatusAfter | app/bajas/page.tsx:155 | a temporary withdrawal suspends the student and any other type withdraws them |
| Bajas.RegistrationPatch | app/bajas/page.tsx:154-158 | the student patch sets the status the type implies, the withdrawal date and the reason's label |
| Bajas.ApplyStudentPatch | app/bajas/page.tsx:154-158 | the server's merge of a partial student: the status is set, dates and reasons are set when the patch has them, and every other field is kept |
| Bajas.BajasPage.constructor | app/bajas/page.tsx:79-92 | the page starts with an empty search, the dialog closed, every reason and the empty form |
| Bajas.BajasPage.HandleSubmit | app/bajas/page.tsx:145-172 | sends the new withdrawal and the student patch; the store gets the server's withdrawal appended and the server's student copy in place; the dialog closes and the form resets; search and reason filter are kept |
| Bajas.BajasPage.HandleReactivate | app/bajas/page.tsx:174-177 | sends status "active" for the student and today's return date for the withdrawal, and stores both server answers |
| Bajas.FindAfterReplace | lib/store.ts:189-194 | after the server's copy replaces a stored student, looking that id up finds the copy |
| Bajas.ReactivationCycle | app/bajas/page.tsx:145-177 | registering a temporary withdrawal suspends the student and offers reactivation; reactivating makes the student active and withdraws the offer |
| Bajas.ReactivateOffered | app/bajas/page.tsx:558 | the button is offered exactly for a temporary withdrawal whose student, the first stored with that id, is not active; an unknown student counts as not active |
| Bajas.FirstStudentUnique | app/bajas/page.tsx:558 | the first student stored with an id is the one the lookup finds |
| Bajas.OnlyTemporaryReactivates | app/bajas/page.tsx:558 | the reactivate button is offered only for temporary withdrawals |
| Bajas.FilteredWithdrawals | app/bajas/page.tsx:215-224 | exactly the withdrawals whose student's name or reason label contains the search ignoring case, that are in the period selection and match the reason filter |
| Bajas.FilteredWithdrawalsFacts | app/bajas/page.tsx:215-224 | the list keeps the stored order; with no search, no period and every reason it is the whole list |
| Bajas.TypeLabel | app/bajas/page.tsx:186-193 | each withdrawal type has its own label |
| Bajas.RiskLabel | app/bajas/page.tsx:202-213 | each risk level has its own label |
| Carreras.CareersGate | app/carreras/page.tsx:36-46 | the page renders exactly for an authenticated administrator; an anonymous visitor goes to /login and a student to /mi-portal |
| Carreras.GateMatchesGuard | app/carreras/page.tsx:36-46 | with a user, the page's gate decides as the default guard does; with a session but no user, the gate renders nothing while the guard would render |
| Carreras.FilteredCareers | app/carreras/page.tsx:49-54 | exactly the careers whose name, code or faculty contains the search ignoring case |
| Carreras.FilteredCareersFacts | app/carreras/page.tsx:49-54 | the list keeps the stored order, and an empty search keeps every career |
| Carreras.CareerStats | app/carreras/page.tsx:73-80 | the student figure is at most the career's students of any status, and the subject figure is at most the number of subjects |
| Carreras.CareerStatsStep | app/carreras/page.tsx:73-80 | both figures start at zero, one more student adds one exactly when it is an active student of the career, and one more subject adds one exactly when it belongs to the career |
| Carreras.CareerStatsSplit | app/carreras/page.tsx:74 | the career's active students and its students of other statuses together are all its students |
| Carreras.CareersPage.constructor | app/carreras/page.tsx:25-34 | the page starts with an empty search, the dialog closed and the empty form (10 semesters, active) |
| Carreras.CareersPage.SetCode | app/carreras/page.tsx:125 | the code field holds the typed text in capitals, and only that field changes |
| Carreras.CareersPage.HandleSubmit | app/carreras/page.tsx:56-71 | sends the form with the new id, stores the server's career appended, and closes the dialog and resets the form |
| StudentForm.DefaultFormFacts | components/students/student-form.tsx:23-38 | the empty form starts in semester 1, year 1, active, with year and semester agreeing |
| StudentForm.SemesterOrFirst | components/students/student-form.tsx:67 | `currentSemester \|\| 1`: the semester, or 1 when it is 0 |
| StudentForm.StudentData | components/students/student-form.tsx:65-68 | the data sent are the form with the year recomputed from the semester (or from 1) and nothing else changed |
| StudentForm.SubmittedAgrees | components/students/student-form.tsx:65-68 | with a semester set, what is sent has the year of that semester; with semester 0 the year sent is 1; a form whose year already agrees is sent unchanged (unless its semester is 0) |
| StudentForm.SemesterOptions | components/students/student-form.tsx:210-212 | the ten choices are semesters 1 to 10, each shown with its year |
| StudentForm.SemesterOptionYears | components/students/student-form.tsx:210-212 | year k is shown for exactly semesters 2k-1 and 2k |
| StudentForm.StudentFormDialog.constructor | components/students/student-form.tsx:40-61 | the form starts as the student being edited, or as the empty form |
| StudentForm.StudentFormDialog.HandleSemesterChange | components/students/student-form.tsx:85-91 | choosing a semester sets it and its year, keeping them in agreement |
| StudentForm.StudentFormDialog.HandleSubmit | components/students/student-form.tsx:63-83 | sends the form with the year recomputed (and a new id when adding); an edit replaces, an add appends the server's copy; the dialog closes only when the server succeeds |
| Seqs.Filter | components/dashboard/stats-cards.tsx:43 | `filter` keeps exactly the elements that pass, each as often as it occurs and no more |
| Seqs.FilterIsSubseq | components/dashboard/stats-cards.tsx:43 | `filter` keeps the original order |
| Seqs.CountSnoc | components/dashboard/stats-cards.tsx:120 | one more element adds one to a `filter(...).length` exactly when it passes |
| Seqs.CountZero | components/dashboard/pending-tasks.tsx:21 | `filter(...).length` is zero exactly when no element passes |
| Seqs.CountAll | components/dashboard/stats-cards.tsx:39 | `filter(...).length` is the whole length exactly when every element passes |
| Seqs.CountDisjoint | components/dashboard/stats-cards.tsx:40-75 | two tests that never both pass count at most the whole length together |
| Seqs.Take | components/dashboard/withdrawal-summary.tsx:43 | `slice(0, n)` is the prefix of length min(n, length) |
| Seqs.ReplaceWhere | lib/store.ts:192 | the `map` with a replacement keeps the length and replaces exactly the matching elements |
| Seqs.Find | components/dashboard/pending-tasks.tsx:17 | `find` returns nothing exactly when no element passes, and otherwise the first element that passes |
| Seqs.FindIndex | components/dashboard/pending-tasks.tsx:17 | the position found is the first one that passes |
| Seqs.Map | components/dashboard/stats-cards.tsx:36 | `map` keeps the length and applies the function at every position |
| Sorting.SortByKey | components/dashboard/pending-tasks.tsx:13 | the sort returns a permutation of its input |
| Sorting.SortIsSorted | components/dashboard/pending-tasks.tsx:13 | the sorted list is in non-decreasing key order |
| Sorting.SortIsStable | components/dashboard/academic-alerts.tsx:13-16 | elements with equal keys keep their original order, as in the stable `Array.prototype.sort` |
| Sorting.TopByKey | components/dashboard/academic-alerts.tsx:13-17 | sorting then `slice(0, n)` keeps min(n, length) input elements in key order, and no element left out has a smaller key than one kept |
| Tally.Occurrences | components/dashboard/withdrawal-summary.tsx:17-20 | the number of occurrences is zero exactly when the key does not occur |
| Tally.Distinct | components/dashboard/withdrawal-summary.tsx:17-20 | the keys in first-insertion order: each key once, and exactly the keys that occur |
| Tally.TallyOf | components/dashboard/withdrawal-summary.tsx:17-20 | the finished dictionary has exactly the occurring keys, each mapped to its number of occurrences |
| Tally.CountBy | components/dashboard/withdrawal-summary.tsx:17-20 | the `(counts[k] \|\| 0) + 1` loop builds exactly that dictionary and key order |
| Tally.CountKeyed | app/bajas/page.tsx:134-141 | the loop that skips elements without a key builds the tally and key order of the keys it meets |
| Tally.ObjectEntries | components/dashboard/withdrawal-summary.tsx:22 | `Object.entries` lists the dictionary's pairs in its key order |
| Tally.EntriesOfTally | components/dashboard/withdrawal-summary.tsx:22 | the entries of the counting loop's dictionary are the distinct keys paired with their occurrences |
| Tally.EntriesAreTally | components/dashboard/withdrawal-summary.tsx:22 | the entries have distinct keys, every count is a true count of at least one, and every occurring key is listed |
| Tally.EntriesSum | components/dashboard/withdrawal-summary.tsx:17-22 | the counts of the entries add up to the number of counted elements |
| Tally.TopByCountFacts | components/dashboard/withdrawal-summary.tsx:22-24 | the top n entries are min(n, length) input entries in non-increasing count order, and no entry left out has a larger count than one kept |
| Tally.RankingOfTally | components/dashboard/attendance-summary.tsx:28-30 | a ranking of a tally lists min(n, number of distinct keys) distinct keys with their true counts in non-increasing order |
| Tally.RankingOmitsNoLarger | components/dashboard/attendance-summary.tsx:28-30 | a key missing from a ranking occurs no more often than any key in it |
| SeedFacts.SeedStudentsNivel | lib/data.ts:274-413 | every seed student's year agrees with their semester |
| SeedFacts.SeedSubjectsNivel | lib/data.ts:490-600 | every seed subject's year agrees with its semester |
| SeedFacts.StudentsNumbered | lib/data.ts:274-413 | the seed students have the ids "1", "2", ... in order |
| SeedFacts.SubjectsNumbered | lib/data.ts:490-600 | the seed subjects have the ids "1", "2", ... in order |
| SeedFacts.SeedPeriodIdsUnique | lib/data.ts:203-231 | no two seed periods share an id |
| SeedFacts.SeedCareerIdsUnique | lib/data.ts:234-271 | no two seed careers share an id |
| SeedFacts.SeedStudentIdsUnique | lib/data.ts:274-413 | no two seed students share an id |
| SeedFacts.SeedTeacherIdsUnique | lib/data.ts:416-487 | no two seed teachers share an id |
| SeedFacts.SeedSubjectIdsUnique | lib/data.ts:490-600 | no two seed subjects share an id |
| SeedFacts.SeedEnrollmentIdsUnique | lib/data.ts:603-644 | no two seed enrollments share an id |
| SeedFacts.SeedAttendanceIdsUnique | lib/data.ts:647-684 | no two seed attendance marks share an id |
| SeedFacts.SeedGradeIdsUnique | lib/data.ts:687-789 | no two seed grades share an id |
| SeedFacts.SeedWithdrawalIdsUnique | lib/data.ts:792-817 | no two seed withdrawals share an id |
| SeedFacts.SeedAlertIdsUnique | lib/data.ts:820-853 | no two seed alerts share an id |
| SeedFacts.SeedAssignmentIdsUnique | lib/data.ts:856-890 | no two seed assignments share an id |
| SeedFacts.SeedSubmissionIdsUnique | lib/data.ts:893-907 | no two seed submissions share an id |
| SeedFacts.SeedCourseIdsUnique | lib/data.ts:910-933 | no two seed courses share an id |
| SeedFacts.SeedEnrollmentsResolve | lib/data.ts:603-644 | every seed enrollment names an existing student, and every subject it lists exists |
| SeedFacts.EnrolledSubjectsResolve | lib/data.ts:603-644 | each subject listed by a seed enrollment exists |
| SeedFacts.SeedStudentReferencesResolve | lib/data.ts:647-817 | every seed attendance mark and every seed withdrawal names an existing student |
| SeedFacts.SeedWithdrawalsAgree | lib/data.ts:792-817 | each seed withdrawal's student has the status its withdrawal type implies, and the withdrawn student's date and reason label match the withdrawal |
| SeedFacts.SeedActivePeriod | lib/data.ts:203-231 | exactly one seed period is active, and it is the period the store selects at start |
| SeedFacts.SeedMarksInDefaultPeriod | lib/data.ts:647-684 | every seed attendance mark belongs to the default period |
| SeedFacts.MarkMultiplicities | lib/data.ts:647-684 | the seed marks are 5 present, 4 absent, 2 late and 1 excused |
| SeedFacts.TalliesByStatuses | components/dashboard/attendance-summary.tsx:13-18 | the four figures of any list of marks are the multiplicities of its statuses |
| SeedFacts.TalliesInPeriod | components/dashboard/attendance-summary.tsx:11-18 | for marks all in the selected period, the panel's figures are the multiplicities of their statuses |
| SeedFacts.SeedDefaultTallies | lib/data.ts:647-684 | for the seed in the default period, the attendance panel shows 5 present, 4 absent, 2 late and 1 excused |
| SeedFacts.SeedAbsencesAllOneStudent | lib/data.ts:647-684 | in the default period the seed has four absences, all of student "2" |
| SeedFacts.SeedMarksFacts | lib/data.ts:647-684 | every seed mark is in the default period, their statuses are the listed ones, and only student "2" is ever absent |
| SeedFacts.AbsencesFromMarks | components/dashboard/attendance-summary.tsx:21-26 | when every absence in a list of marks is one student's, the absent ids are that student repeated once per absence |

## Left out

- `lib/api.ts` and the REST server are not part of this model. Each server reply is a parameter: a `Result` with the record or an `ApiError`. `Store.Snapshot` stands for the thirteen fetches that `initialize` runs with `Promise.all`, and a failure of any one of them is a failure of the whole.
- Asynchrony is not modelled. Each action runs to completion in one step, and interleavings of overlapping requests are not covered.
- The withdrawals page starts `addWithdrawal` and `updateStudent` without awaiting them, and `handleReactivate` does the same with its two updates. The model applies both in program order.
- The `persist` middleware of the session store (localStorage under "auth-storage") and its rehydration are not modelled.
- Clocks are parameters: `today` for `new Date().toISOString().split("T")[0]`, and `stamp` or `id` for `Date.now().toString()`. `Asistencias.BulkRecords` takes one `stamp` for the whole submission, whereas the bulk form calls `Date.now()` once per record, so in the source the time-stamp prefix of the ids can differ between the records of one submission.
- `new Date(d).getTime()` becomes `Text.DateKey`. The key orders well-formed YYYY-MM-DD dates as time does (`Text.IsoDateKey`). Other date strings are not covered, and neither are time zones or `toLocaleDateString`.
- Case mapping covers ASCII letters only. `toLowerCase` and `toUpperCase` on letters such as "Á" or "ñ" are outside this model.
- Numbers are integers. Grades, counts and percentages are `int`/`nat`, and rounding is exact integer rounding. `Math.round` is modelled as round-half-up (`StatsCards.RoundHalfUp`), and `toFixed(0)` as round-half-away-from-zero (`StatsCards.RoundHalfAway`). Binary floating point can round some exact halves differently; that is not modelled.
- Key order of `Object.entries` is first-insertion order in the model. JavaScript lists integer-like keys, such as the student ids "1" and "12", first and in ascending numeric order. For the count dictionaries that are sorted by count afterwards (the absence rankings), only the order among equal counts can differ from the model. That also decides which of several tied entries falls at the cut of a top-n list. The ranking facts proved here do not depend on that order: true counts, non-increasing order, distinct keys, and an omitted key counting no more than any shown one. `Tally.TopByCountFacts` proves them for any list of distinct entries.
- Asistencias.BulkRecords and Asistencias.AttendancePage.HandleBulkSubmit: the records of the bulk form follow the dictionary's insertion order (`bulkOrder`), that is the order of the active students in the store. With integer-like student ids, JavaScript sends them in ascending numeric id order instead: active students stored as "12", "3" give records for 12 then 3 in the model, but 3 then 12 in the source. The store's attendance list receives them in that order, and so does the order of same-day rows in the stably sorted history (`Asistencias.SortHistory`). The model states the set of records, one per key with its status, but not that numeric order.
- `Carreras.CareerStats`: its own contract only bounds the two figures. The exact figures are fixed by `Carreras.CareerStatsStep` and `Carreras.CareerStatsSplit`.
- `AcademicAlerts.ActiveAlerts`: its own contract states only the bound of five. The content and order are stated by `AcademicAlerts.ActiveAlertsAreOpen`, `AcademicAlerts.ActiveAlertsByRank` and `AcademicAlerts.ActiveAlertsOrder`.
- `Bajas.Stats`: its own contract states only the total and the high-risk bound. The four type figures are tied to the total by `Bajas.StatsSum`.
- `AuthStore.AuthState.IsAdmin` and `AuthStore.AuthState.IsStudent`: each contract says only that a role needs a user. `AuthStore.SessionRoles` states that, for a logged-in user, each holds exactly when the user's role matches.
- `RecentStudents.StatusBadge`: a status equal to a key every JavaScript object inherits, such as "constructor", looks up that inherited member in the source; the model gives it "Inactivo" like any other unknown name.
- `isOverdue` in the pending-tasks panel compares with the current time and is left out. The severity icon of the alerts panel, badge colours and classes, chart colours and all JSX layout are presentation and are left out.
- The student form's partial record is a full `Student`, with the fields the form leaves out set to "" or absent. Another form's data is never merged in.
- `CareersPage.HandleSubmit` does not await `addCareer`. The dialog closes and the form resets whatever the server answers, and the model states exactly that.
- The store actions for courses, teachers, assignments, submissions and enrollments are modelled like the others. Their pages (`cursos`, `docentes`, `calificaciones`, `estudiantes`, `configuracion`), the student detail and table, the course and grade forms, the sidebar, the charts, the upcoming-events panel and the store initializer are not part of this model.
- The source defines no delete action for academic periods, careers or risk alerts, so the model has none either.
