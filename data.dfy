/** The records of the university dashboard (academic periods, careers,
    students, enrollments, teachers, subjects, attendance, grades, withdrawals,
    risk alerts, assignments, submissions and courses), the labels of the
    withdrawal reasons, and the seed data the mock server starts from.
    String unions become datatypes; optional fields become `Option`. */
module Data {
  import opened Wrappers

  datatype PeriodStatus = Active | Closed | Upcoming

  /** A term of study, "Gestión" (`id` like "2025-1"). */
  datatype AcademicPeriod = AcademicPeriod(
    id: string, name: string, year: int, semester: int,
    startDate: string, endDate: string, status: PeriodStatus)

  datatype CareerStatus = Active | Inactive

  /** A degree programme; `duration` is in semesters. */
  datatype Career = Career(
    id: string, name: string, code: string, faculty: string, duration: int,
    description: string, status: CareerStatus)

  datatype StudentStatus = Active | Inactive | Graduated | Withdrawn | Suspended

  /** A student; `nivel` is the year of study that `currentSemester` falls in. */
  datatype Student = Student(
    id: string, firstName: string, lastName: string, email: string, phone: string,
    dateOfBirth: string, enrollmentDate: string, careerId: string,
    currentSemester: int, nivel: int, status: StudentStatus, avatar: Option<string>,
    address: string, emergencyContact: string, emergencyPhone: string,
    studentCode: string, withdrawalDate: Option<string>, withdrawalReason: Option<string>)

  datatype EnrollmentStatus = Active | Withdrawn | Completed

  /** A student's registration for a period, with the subjects taken. */
  datatype Enrollment = Enrollment(
    id: string, studentId: string, periodId: string, subjectIds: seq<string>,
    enrollmentDate: string, status: EnrollmentStatus)

  datatype TeacherStatus = Active | Inactive | OnLeave
  datatype AcademicRank = Auxiliar | Titular | Asociado | Emerito

  datatype Teacher = Teacher(
    id: string, firstName: string, lastName: string, email: string, phone: string,
    dateOfBirth: string, hireDate: string, specialization: string,
    status: TeacherStatus, address: string, degree: string,
    academicRank: AcademicRank, salary: Option<int>)

  /** A subject of a career, taught in a given semester (and so a given year). */
  datatype Subject = Subject(
    id: string, name: string, code: string, description: string,
    teacherId: string, careerId: string, semester: int, nivel: int,
    credits: int, schedule: string, classroom: string,
    prerequisites: Option<seq<string>>)

  datatype AttendanceStatus = Present | Absent | Late | Excused

  /** One attendance mark. `periodId` is declared mandatory, but records
      created by the bulk form carry none, so it is optional here. */
  datatype Attendance = Attendance(
    id: string, studentId: string, subjectId: string, periodId: Option<string>,
    date: string, status: AttendanceStatus, notes: Option<string>)

  datatype GradeType = Partial1 | Partial2 | Partial3 | Final | Recovery | Practice

  /** A grade. `courseId` is not declared, but the grade table filters on it. */
  datatype Grade = Grade(
    id: string, studentId: string, subjectId: string, periodId: string,
    courseId: Option<string>, gradeType: GradeType, grade: int, maxGrade: int,
    weight: int, date: string, comments: Option<string>)

  datatype WithdrawalReason =
    | Economic | AcademicPerformance | Health | Work | Family | Relocation
    | LackOfInterest | ScheduleConflict | Other

  datatype WithdrawalType = Temporary | Permanent | Transfer | Academic
  datatype RiskLevel = Low | Medium | High

  /** A student leaving a period, temporarily or for good. */
  datatype Withdrawal = Withdrawal(
    id: string, studentId: string, periodId: string, date: string,
    reason: WithdrawalReason, withdrawalType: WithdrawalType,
    subjectIds: Option<seq<string>>, notes: Option<string>,
    returnDate: Option<string>, followUpNotes: Option<string>, riskLevel: RiskLevel)

  /** `withdrawalReasonLabels`: the Spanish label of each reason. */
  function ReasonLabel(r: WithdrawalReason): string {
    match r
    case Economic => "Problemas económicos"
    case AcademicPerformance => "Bajo rendimiento académico"
    case Health => "Problemas de salud"
    case Work => "Incompatibilidad laboral"
    case Family => "Problemas familiares"
    case Relocation => "Cambio de residencia"
    case LackOfInterest => "Pérdida de interés en la carrera"
    case ScheduleConflict => "Conflicto de horarios"
    case Other => "Otros motivos"
  }

  /** All nine reasons, in declaration order. */
  const AllReasons: seq<WithdrawalReason> :=
    [Economic, AcademicPerformance, Health, Work, Family, Relocation,
     LackOfInterest, ScheduleConflict, Other]

  /** The label table is total and no two reasons share a label. */
  lemma ReasonLabelsDistinct(a: WithdrawalReason, b: WithdrawalReason)
    ensures |ReasonLabel(a)| > 0
    ensures ReasonLabel(a) == ReasonLabel(b) ==> a == b
  {
    LabelShape(a);
    LabelShape(b);
  }

  /** The length of each label and its eleventh character; no two reasons
      agree on both. */
  function LabelMark(r: WithdrawalReason): (nat, char) {
    match r
    case Economic => (20, 'e')
    case AcademicPerformance => (26, 'm')
    case Health => (18, 'd')
    case Work => (24, 'i')
    case Family => (20, 'f')
    case Relocation => (20, 'r')
    case LackOfInterest => (32, ' ')
    case ScheduleConflict => (21, 'd')
    case Other => (13, 'v')
  }

  lemma LabelShape(r: WithdrawalReason)
    ensures |ReasonLabel(r)| > 10
    ensures (|ReasonLabel(r)|, ReasonLabel(r)[10]) == LabelMark(r)
  {
  }

  datatype AlertType = AttendanceAlert | GradesAlert | BehaviorAlert | DropoutRiskAlert
  datatype Severity = Low | Medium | High | Critical

  /** A warning that a student is at risk, until it is resolved. */
  datatype StudentRiskAlert = StudentRiskAlert(
    id: string, studentId: string, periodId: string, alertType: AlertType,
    severity: Severity, description: string, date: string, resolved: bool,
    resolvedDate: Option<string>, resolvedNotes: Option<string>)

  datatype AssignmentType = Homework | Project | Exam | Quiz | Presentation | Lab
  datatype AssignmentStatus = Active | Closed

  /** A piece of coursework with a due date (ISO `YYYY-MM-DD`). */
  datatype Assignment = Assignment(
    id: string, subjectId: string, periodId: string, title: string,
    description: string, dueDate: string, maxScore: int,
    assignmentType: AssignmentType, status: AssignmentStatus)

  /** The wire name of an assignment type, as stored in the records. */
  function AssignmentTypeName(t: AssignmentType): string {
    match t
    case Homework => "homework"
    case Project => "project"
    case Exam => "exam"
    case Quiz => "quiz"
    case Presentation => "presentation"
    case Lab => "lab"
  }

  datatype SubmissionStatus = Pending | Submitted | Graded | Late | Missing

  /** A student's submission for an assignment. */
  datatype StudentAssignment = StudentAssignment(
    id: string, assignmentId: string, studentId: string,
    submittedDate: Option<string>, score: Option<int>, status: SubmissionStatus,
    feedback: Option<string>)

  /** A course of the older course-based screens. */
  datatype Course = Course(
    id: string, name: string, code: string, description: string,
    teacher: string, credits: int, schedule: string, capacity: int, enrolled: int)

  // ============ Seed data ============

  /** The seed `academicPeriods`. */
  const AcademicPeriods: seq<AcademicPeriod> := [
    AcademicPeriod("2025-1", "Gestión 1/2025", 2025, 1, "2025-02-03", "2025-06-30", PeriodStatus.Active),
    AcademicPeriod("2024-2", "Gestión 2/2024", 2024, 2, "2024-08-01", "2024-12-15", PeriodStatus.Closed),
    AcademicPeriod("2024-1", "Gestión 1/2024", 2024, 1, "2024-02-05", "2024-06-28", PeriodStatus.Closed)
  ]

  /** The seed `careers`. */
  const Careers: seq<Career> := [
    Career("1", "Ingeniería de Sistemas", "SIS", "Facultad de Ingeniería", 10, "Formación en desarrollo de software, redes y sistemas de información", CareerStatus.Active),
    Career("2", "Administración de Empresas", "ADM", "Facultad de Ciencias Económicas", 10, "Gestión empresarial, finanzas y recursos humanos", CareerStatus.Active),
    Career("3", "Derecho", "DER", "Facultad de Ciencias Jurídicas", 10, "Formación en ciencias jurídicas y derecho", CareerStatus.Active),
    Career("4", "Medicina", "MED", "Facultad de Ciencias de la Salud", 12, "Formación médica integral", CareerStatus.Active)
  ]

  /** The seed `students`. */
  const Students: seq<Student> := [
    Student("1", "María", "García López", "maria.garcia@universidad.edu", "+591 712 345 678", "2002-03-15", "2023-02-01", "1", 5, 3, StudentStatus.Active, None, "Av. América 123, Cochabamba", "Carmen López", "+591 712 345 679", "SIS-2023-001", None, None),
    Student("2", "Carlos", "Martínez Ruiz", "carlos.martinez@universidad.edu", "+591 723 456 789", "2001-07-22", "2022-02-01", "1", 7, 4, StudentStatus.Active, None, "Calle Jordán 456, Cochabamba", "José Martínez", "+591 723 456 780", "SIS-2022-015", None, None),
    Student("3", "Ana", "Rodríguez Fernández", "ana.rodriguez@universidad.edu", "+591 734 567 890", "2003-11-08", "2024-02-01", "2", 3, 2, StudentStatus.Active, None, "Av. Heroínas 789, Cochabamba", "Laura Fernández", "+591 734 567 891", "ADM-2024-008", None, None),
    Student("4", "Pablo", "Sánchez Torres", "pablo.sanchez@universidad.edu", "+591 745 678 901", "2000-05-30", "2021-02-01", "3", 9, 5, StudentStatus.Active, None, "Calle España 321, Cochabamba", "Miguel Sánchez", "+591 745 678 902", "DER-2021-022", None, None),
    Student("5", "Lucía", "Hernández Díaz", "lucia.hernandez@universidad.edu", "+591 756 789 012", "2002-09-12", "2023-02-01", "1", 5, 3, StudentStatus.Withdrawn, None, "Av. Ballivián 654, Cochabamba", "Rosa Díaz", "+591 756 789 013", "SIS-2023-003", Some("2024-11-01"), Some("Problemas económicos")),
    Student("6", "Diego", "López Moreno", "diego.lopez@universidad.edu", "+591 767 890 123", "1999-01-25", "2020-02-01", "4", 10, 5, StudentStatus.Active, None, "Calle Sucre 987, Cochabamba", "Antonio López", "+591 767 890 124", "MED-2020-005", None, None),
    Student("7", "Elena", "Jiménez Castro", "elena.jimenez@universidad.edu", "+591 778 901 234", "2003-04-18", "2024-02-01", "2", 3, 2, StudentStatus.Suspended, None, "Av. Ayacucho 147, Cochabamba", "María Castro", "+591 778 901 235", "ADM-2024-012", None, None),
    Student("8", "Adrián", "Ruiz Navarro", "adrian.ruiz@universidad.edu", "+591 789 012 345", "2001-12-03", "2022-02-01", "1", 7, 4, StudentStatus.Active, None, "Calle Calama 258, Cochabamba", "Pedro Ruiz", "+591 789 012 346", "SIS-2022-018", None, None)
  ]

  /** The seed `teachers`. */
  const Teachers: seq<Teacher> := [
    Teacher("1", "Juan", "Pérez González", "juan.perez@universidad.edu", "+591 711 111 111", "1975-05-15", "2010-02-01", "Programación y Bases de Datos", TeacherStatus.Active, "Zona Norte, Cochabamba", "Ph.D. en Ciencias de la Computación", AcademicRank.Titular, None),
    Teacher("2", "Ana", "Martín López", "ana.martin@universidad.edu", "+591 722 222 222", "1980-03-22", "2012-02-01", "Gestión Empresarial", TeacherStatus.Active, "Zona Sur, Cochabamba", "Maestría en Administración de Empresas", AcademicRank.Asociado, None),
    Teacher("3", "Carlos", "Ruiz Fernández", "carlos.ruiz@universidad.edu", "+591 733 333 333", "1970-11-08", "2005-02-01", "Derecho Civil y Comercial", TeacherStatus.Active, "Centro, Cochabamba", "Ph.D. en Derecho", AcademicRank.Emerito, None),
    Teacher("4", "María", "González Torres", "maria.gonzalez@universidad.edu", "+591 744 444 444", "1978-07-30", "2011-02-01", "Redes y Telecomunicaciones", TeacherStatus.Active, "Zona Oeste, Cochabamba", "Maestría en Telecomunicaciones", AcademicRank.Titular, None),
    Teacher("5", "Roberto", "Sánchez Moreno", "roberto.sanchez@universidad.edu", "+591 755 555 555", "1985-09-12", "2015-02-01", "Anatomía y Fisiología", TeacherStatus.Active, "Zona Este, Cochabamba", "Médico Cirujano, Especialista en Anatomía", AcademicRank.Asociado, None)
  ]

  /** The seed `subjects`. */
  const Subjects: seq<Subject> := [
    Subject("1", "Programación Avanzada", "SIS-501", "Patrones de diseño, arquitectura de software", "1", "1", 5, 3, 6, "Lun, Mié, Vie 8:00-10:00", "Lab. 101", Some(["SIS-401"])),
    Subject("2", "Base de Datos II", "SIS-502", "Bases de datos distribuidas, NoSQL, optimización", "1", "1", 5, 3, 6, "Mar, Jue 10:00-12:30", "Lab. 102", Some(["SIS-402"])),
    Subject("3", "Redes de Computadoras", "SIS-503", "Protocolos, configuración de redes, seguridad", "4", "1", 5, 3, 5, "Lun, Mié 14:00-16:00", "Lab. 103", None),
    Subject("4", "Ingeniería de Software", "SIS-504", "Metodologías ágiles, gestión de proyectos", "1", "1", 5, 3, 5, "Mar, Jue 14:00-16:00", "Aula 201", None),
    Subject("5", "Sistemas Operativos", "SIS-505", "Gestión de procesos, memoria, sistemas distribuidos", "4", "1", 5, 3, 5, "Vie 14:00-18:00", "Lab. 104", None),
    Subject("6", "Contabilidad Gerencial", "ADM-301", "Análisis de costos y toma de decisiones", "2", "2", 3, 2, 6, "Lun, Mié, Vie 10:00-12:00", "Aula 301", None),
    Subject("7", "Marketing Estratégico", "ADM-302", "Estrategias de mercado y posicionamiento", "2", "2", 3, 2, 5, "Mar, Jue 8:00-10:30", "Aula 302", None),
    Subject("8", "Derecho Procesal Civil", "DER-901", "Procedimientos civiles y comerciales", "3", "3", 9, 5, 6, "Lun, Mié, Vie 16:00-18:00", "Aula 401", None)
  ]

  /** The seed `enrollments`. */
  const Enrollments: seq<Enrollment> := [
    Enrollment("1", "1", "2025-1", ["1", "2", "3", "4", "5"], "2025-01-15", EnrollmentStatus.Active),
    Enrollment("2", "2", "2025-1", ["1", "2", "3", "4", "5"], "2025-01-16", EnrollmentStatus.Active),
    Enrollment("3", "3", "2025-1", ["6", "7"], "2025-01-15", EnrollmentStatus.Active),
    Enrollment("4", "8", "2025-1", ["1", "2", "3", "4", "5"], "2025-01-17", EnrollmentStatus.Active),
    Enrollment("5", "4", "2025-1", ["8"], "2025-01-15", EnrollmentStatus.Active)
  ]

  /** The seed `attendances`. */
  const Attendances: seq<Attendance> := [
    Attendance("1", "1", "1", Some("2025-1"), "2025-02-10", AttendanceStatus.Present, None),
    Attendance("2", "1", "2", Some("2025-1"), "2025-02-10", AttendanceStatus.Present, None),
    Attendance("3", "2", "1", Some("2025-1"), "2025-02-10", AttendanceStatus.Absent, Some("Sin justificación")),
    Attendance("4", "2", "2", Some("2025-1"), "2025-02-10", AttendanceStatus.Late, Some("Llegó 15 min tarde")),
    Attendance("5", "1", "3", Some("2025-1"), "2025-02-10", AttendanceStatus.Present, None),
    Attendance("6", "3", "6", Some("2025-1"), "2025-02-10", AttendanceStatus.Excused, Some("Cita médica")),
    Attendance("7", "8", "1", Some("2025-1"), "2025-02-10", AttendanceStatus.Present, None),
    Attendance("8", "1", "1", Some("2025-1"), "2025-02-07", AttendanceStatus.Present, None),
    Attendance("9", "2", "1", Some("2025-1"), "2025-02-07", AttendanceStatus.Absent, None),
    Attendance("10", "2", "1", Some("2025-1"), "2025-02-05", AttendanceStatus.Absent, None),
    Attendance("11", "2", "1", Some("2025-1"), "2025-02-03", AttendanceStatus.Absent, None),
    Attendance("12", "8", "2", Some("2025-1"), "2025-02-10", AttendanceStatus.Late, None)
  ]

  /** The seed `grades`. */
  const Grades: seq<Grade> := [
    Grade("1", "1", "1", "2025-1", None, GradeType.Partial1, 85, 100, 25, "2025-03-15", Some("Buen desempeño")),
    Grade("2", "1", "2", "2025-1", None, GradeType.Partial1, 90, 100, 25, "2025-03-15", None),
    Grade("3", "1", "3", "2025-1", None, GradeType.Partial1, 75, 100, 25, "2025-03-15", None),
    Grade("4", "2", "1", "2025-1", None, GradeType.Partial1, 70, 100, 25, "2025-03-15", None),
    Grade("5", "2", "2", "2025-1", None, GradeType.Partial1, 65, 100, 25, "2025-03-15", Some("Necesita mejorar")),
    Grade("6", "3", "6", "2025-1", None, GradeType.Partial1, 88, 100, 25, "2025-03-15", None),
    Grade("7", "8", "1", "2025-1", None, GradeType.Partial1, 82, 100, 25, "2025-03-15", None),
    Grade("8", "1", "1", "2025-1", None, GradeType.Practice, 95, 100, 10, "2025-02-28", None),
    Grade("9", "2", "1", "2025-1", None, GradeType.Practice, 60, 100, 10, "2025-02-28", None)
  ]

  /** The seed `withdrawals`. */
  const Withdrawals: seq<Withdrawal> := [
    Withdrawal("1", "5", "2025-1", "2024-11-01", WithdrawalReason.Economic, WithdrawalType.Permanent, None, Some("Dificultades para cubrir matrícula y materiales"), None, Some("Se contactó a servicios de bienestar estudiantil"), RiskLevel.High),
    Withdrawal("2", "7", "2025-1", "2024-10-15", WithdrawalReason.AcademicPerformance, WithdrawalType.Temporary, Some(["6", "7"]), Some("Reprobó 3 materias consecutivas"), Some("2025-08-01"), Some("Asignado a programa de tutorías"), RiskLevel.Medium)
  ]

  /** The seed `studentRiskAlerts`. */
  const StudentRiskAlerts: seq<StudentRiskAlert> := [
    StudentRiskAlert("1", "2", "2025-1", AlertType.AttendanceAlert, Severity.High, "4 inasistencias consecutivas en Programación Avanzada", "2025-02-10", false, None, None),
    StudentRiskAlert("2", "2", "2025-1", AlertType.GradesAlert, Severity.Medium, "Promedio por debajo de 70 en Base de Datos II", "2025-03-16", false, None, None),
    StudentRiskAlert("3", "7", "2024-2", AlertType.DropoutRiskAlert, Severity.Critical, "Alto riesgo de abandono: bajo rendimiento + inasistencias", "2024-10-01", true, Some("2024-10-15"), Some("Estudiante dio de baja temporal"))
  ]

  /** The seed `assignments`. */
  const Assignments: seq<Assignment> := [
    Assignment("1", "1", "2025-1", "Proyecto: Patrones de Diseño", "Implementar un sistema usando al menos 3 patrones de diseño", "2025-03-28", 100, AssignmentType.Project, AssignmentStatus.Active),
    Assignment("2", "2", "2025-1", "Práctica: Consultas Avanzadas", "Optimización de consultas en PostgreSQL", "2025-03-20", 100, AssignmentType.Lab, AssignmentStatus.Active),
    Assignment("3", "6", "2025-1", "Caso de Estudio: Análisis de Costos", "Análisis de estructura de costos de una empresa local", "2025-03-25", 100, AssignmentType.Project, AssignmentStatus.Active)
  ]

  /** The seed `studentAssignments`. */
  const StudentAssignments: seq<StudentAssignment> := [
    StudentAssignment("1", "1", "1", Some("2025-03-26"), None, SubmissionStatus.Submitted, None),
    StudentAssignment("2", "1", "2", None, None, SubmissionStatus.Pending, None),
    StudentAssignment("3", "2", "1", Some("2025-03-18"), Some(95), SubmissionStatus.Graded, Some("Excelente optimización")),
    StudentAssignment("4", "2", "8", Some("2025-03-19"), None, SubmissionStatus.Submitted, None),
    StudentAssignment("5", "3", "3", None, None, SubmissionStatus.Pending, None)
  ]

  /** The seed `courses`. */
  const Courses: seq<Course> := [
    Course("1", "Programación Avanzada", "SIS-501", "Patrones de diseño, arquitectura de software", "Dr. Juan Pérez", 6, "Lun, Mié, Vie 8:00-10:00", 35, 28),
    Course("2", "Base de Datos II", "SIS-502", "Bases de datos distribuidas, NoSQL", "Dr. Juan Pérez", 6, "Mar, Jue 10:00-12:30", 35, 30)
  ]
}
