/** The grades table: a search over student and course names, a course
    filter, and the colour of each grade. */
module GradeTable {
  import opened Wrappers
  import opened Seqs
  import opened Data
  import opened Store
  import opened Text

  /** `courses.find(c => c.id === grade.courseId)`; a grade without a course
      finds none. */
  function CourseOf(courses: seq<Course>, courseId: Option<string>): (r: Option<Course>)
    ensures r.Some? ==> courseId.Some? && r.value in courses && r.value.id == courseId.value
    ensures courseId.Some? && r.None? ==> forall i :: 0 <= i < |courses| ==> courses[i].id != courseId.value
  {
    match courseId
    case None => None
    case Some(id) => Find(courses, (c: Course) => c.id == id)
  }

  /** `matchesSearch`: the student's first or last name or the course name
      contains the search text, ignoring case; a missing student or course
      contributes nothing. */
  predicate MatchesSearch(g: Grade, students: seq<Student>, courses: seq<Course>, search: string) {
    var q := LowerCase(search);
    var student := StudentWithId(students, g.studentId);
    var course := CourseOf(courses, g.courseId);
    (student.Some? && (Contains(LowerCase(student.value.firstName), q) || Contains(LowerCase(student.value.lastName), q)))
    || (course.Some? && Contains(LowerCase(course.value.name), q))
  }

  /** `matchesCourse`: "all" accepts every grade. */
  predicate MatchesCourse(g: Grade, filterCourse: string) {
    filterCourse == "all" || g.courseId == Some(filterCourse)
  }

  function FilteredGrades(grades: seq<Grade>, students: seq<Student>, courses: seq<Course>,
                          search: string, filterCourse: string): (r: seq<Grade>)
    ensures forall i :: 0 <= i < |r| ==> MatchesSearch(r[i], students, courses, search) && MatchesCourse(r[i], filterCourse)
    ensures forall i :: (0 <= i < |grades| && MatchesSearch(grades[i], students, courses, search)
              && MatchesCourse(grades[i], filterCourse)) ==> grades[i] in r
  {
    Filter(grades, (g: Grade) => MatchesSearch(g, students, courses, search) && MatchesCourse(g, filterCourse))
  }

  /** The table keeps the stored order; a grade whose student and course are
      both unknown is never listed, whatever the search; and with the
      course filter at "all" and an empty search every grade with a known
      student or course is listed. */
  lemma FilteredGradesFacts(grades: seq<Grade>, students: seq<Student>, courses: seq<Course>,
                            search: string, filterCourse: string)
    ensures Subseq(FilteredGrades(grades, students, courses, search, filterCourse), grades)
    ensures forall i :: 0 <= i < |FilteredGrades(grades, students, courses, search, filterCourse)| ==>
              var g := FilteredGrades(grades, students, courses, search, filterCourse)[i];
              StudentWithId(students, g.studentId).Some? || CourseOf(courses, g.courseId).Some?
    ensures search == "" && filterCourse == "all" ==>
              forall i :: (0 <= i < |grades| &&
                (StudentWithId(students, grades[i].studentId).Some? || CourseOf(courses, grades[i].courseId).Some?)) ==>
                grades[i] in FilteredGrades(grades, students, courses, search, filterCourse)
  {
    FilterIsSubseq(grades, (g: Grade) => MatchesSearch(g, students, courses, search) && MatchesCourse(g, filterCourse));
    if search == "" && filterCourse == "all" {
      forall i | 0 <= i < |grades| &&
          (StudentWithId(students, grades[i].studentId).Some? || CourseOf(courses, grades[i].courseId).Some?)
        ensures MatchesSearch(grades[i], students, courses, search)
      {
        var student := StudentWithId(students, grades[i].studentId);
        if student.Some? {
          EmptyIsContained(LowerCase(student.value.firstName));
        } else {
          EmptyIsContained(LowerCase(CourseOf(courses, grades[i].courseId).value.name));
        }
      }
    }
  }

  /** The four colours of `getGradeColor`, from best to worst. */
  datatype GradeColor = SuccessColor | PrimaryColor | WarningColor | DestructiveColor

  function ColorRank(c: GradeColor): int {
    match c
    case SuccessColor => 3
    case PrimaryColor => 2
    case WarningColor => 1
    case DestructiveColor => 0
  }

  function GradeColorOf(grade: int): (c: GradeColor)
    ensures c == SuccessColor <==> grade >= 9
    ensures c == PrimaryColor <==> 7 <= grade < 9
    ensures c == WarningColor <==> 5 <= grade < 7
    ensures c == DestructiveColor <==> grade < 5
  {
    if grade >= 9 then SuccessColor
    else if grade >= 7 then PrimaryColor
    else if grade >= 5 then WarningColor
    else DestructiveColor
  }

  /** A higher grade never gets a worse colour. */
  lemma GradeColorMonotone(a: int, b: int)
    requires a <= b
    ensures ColorRank(GradeColorOf(a)) <= ColorRank(GradeColorOf(b))
  {
  }
}
