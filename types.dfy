/** The records the backend sends (lib/types.ts). String-literal unions become enumerations;
    each has its wire name and a reader that accepts exactly those names. Optional fields
    (`x?: T`) become `Option<T>`. JavaScript numbers that are identifiers or counts are `int`;
    scores and grade points are `real`. */
module Types {
  import opened Common

  datatype Role = Admin | Student | Lecturer

  datatype EnrollmentStatus = Active | Completed | Dropped

  datatype GradeStatus = Draft | Final

  function RoleName(r: Role): string
  {
    match r
    case Admin => "admin"
    case Student => "student"
    case Lecturer => "lecturer"
  }

  /** Accepts exactly the three names `"admin" | "student" | "lecturer"`. */
  function ParseRole(s: string): (r: Option<Role>)
    ensures r.Some? <==> s in {"admin", "student", "lecturer"}
    ensures r.Some? ==> RoleName(r.value) == s
  {
    if s == "admin" then Some(Admin)
    else if s == "student" then Some(Role.Student)
    else if s == "lecturer" then Some(Lecturer)
    else None
  }

  function EnrollmentStatusName(st: EnrollmentStatus): string
  {
    match st
    case Active => "active"
    case Completed => "completed"
    case Dropped => "dropped"
  }

  /** Accepts exactly `"active" | "completed" | "dropped"`. */
  function ParseEnrollmentStatus(s: string): (r: Option<EnrollmentStatus>)
    ensures r.Some? <==> s in {"active", "completed", "dropped"}
    ensures r.Some? ==> EnrollmentStatusName(r.value) == s
  {
    if s == "active" then Some(Active)
    else if s == "completed" then Some(Completed)
    else if s == "dropped" then Some(Dropped)
    else None
  }

  function GradeStatusName(st: GradeStatus): string
  {
    match st
    case Draft => "draft"
    case Final => "final"
  }

  /** Accepts exactly `"draft" | "final"`. */
  function ParseGradeStatus(s: string): (r: Option<GradeStatus>)
    ensures r.Some? <==> s in {"draft", "final"}
    ensures r.Some? ==> GradeStatusName(r.value) == s
  {
    if s == "draft" then Some(Draft)
    else if s == "final" then Some(Final)
    else None
  }

  /** Every enumeration value has a wire name its reader maps back to it. */
  lemma WireNamesRoundTrip(r: Role, e: EnrollmentStatus, g: GradeStatus)
    ensures ParseRole(RoleName(r)) == Some(r)
    ensures ParseEnrollmentStatus(EnrollmentStatusName(e)) == Some(e)
    ensures ParseGradeStatus(GradeStatusName(g)) == Some(g)
  {
  }

  datatype User = User(id: int, username: string, email: string, fullName: string, role: Role)

  /** A student is identified by the string `nim`. */
  datatype Student = Student(
    nim: string,
    name: string,
    email: string,
    major: string,
    angkatan: int,
    photo: Option<string>,
    documents: Option<string>,
    createdAt: string,
    updatedAt: string)

  datatype Course = Course(
    id: int,
    courseCode: string,
    courseName: string,
    credits: int,
    semester: int,
    maxCapacity: int,
    currentEnrollment: int,
    lecturerId: string,
    lecturerName: string,
    createdAt: string,
    updatedAt: string)

  datatype Enrollment = Enrollment(
    id: int,
    nim: string,
    courseId: int,
    semester: string,
    academicYear: string,
    status: EnrollmentStatus,
    enrolledAt: string,
    course: Option<Course>,
    student: Option<Student>)

  /** Component scores, the final grade, the letter and the grade point may all be absent. */
  datatype Grade = Grade(
    id: int,
    nim: string,
    courseId: int,
    semester: string,
    academicYear: string,
    quizScore: Option<real>,
    assignmentScore: Option<real>,
    midtermScore: Option<real>,
    finalScore: Option<real>,
    finalGrade: Option<real>,
    letterGrade: Option<string>,
    gpa: Option<real>,
    status: GradeStatus,
    createdAt: string,
    updatedAt: string,
    course: Option<Course>,
    student: Option<Student>)

  datatype Transcript = Transcript(
    nim: string,
    studentName: string,
    major: string,
    grades: seq<Grade>,
    semesterGPA: real,
    cumulativeGPA: real,
    totalCredits: int)
}
