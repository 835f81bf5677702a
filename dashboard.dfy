/** The home page (app/page.tsx): what it shows for a given `(loading, user)` and which
    dashboard cards each role sees. */
module Dashboard {
  import opened Common
  import Types

  const LoginPath: string := "/login"

  /** The sections of the application a card or link can lead to. */
  datatype Section = Students | Courses | Enrollments | Grades | Transcript

  /** The sections in the order the cards are laid out. */
  const AllSections: seq<Section> := [Students, Courses, Enrollments, Grades, Transcript]

  function Href(s: Section): string
  {
    match s
    case Students => "/students"
    case Courses => "/courses"
    case Enrollments => "/enrollments"
    case Grades => "/grades"
    case Transcript => "/grades/transcript"
  }

  /** Where a section stands in the layout. */
  function Position(s: Section): (k: nat)
    ensures k < |AllSections| && AllSections[k] == s
  {
    match s
    case Students => 0
    case Courses => 1
    case Enrollments => 2
    case Grades => 3
    case Transcript => 4
  }

  /** Who may see each section, one row per section, as the page's own comments list them
      ("Mahasiswa - Admin and Lecturer", "Enrollment - Admin and Students", "Nilai - Admin and
      Lecturer", "Transkrip - Students"; the Courses card carries no role condition): the
      reference the page's conditionals are checked against. */
  function VisibleTo(s: Section): set<Types.Role>
  {
    match s
    case Students => {Types.Admin, Types.Lecturer}
    case Courses => {Types.Admin, Types.Lecturer, Types.Role.Student}
    case Enrollments => {Types.Admin, Types.Role.Student}
    case Grades => {Types.Admin, Types.Lecturer}
    case Transcript => {Types.Role.Student}
  }

  /** The cards the page renders for a signed-in user of role `role`, as its conditionals
      are written: they are exactly the sections listed for that role, in layout order. */
  function Cards(role: Types.Role): (r: seq<Section>)
    ensures forall s :: s in r <==> role in VisibleTo(s)
    ensures forall i, j :: 0 <= i < j < |r| ==> Position(r[i]) < Position(r[j])
  {
    var isAdmin := role == Types.Admin;
    var isLecturer := role == Types.Lecturer;
    var isStudent := role == Types.Role.Student;
    (if isAdmin || isLecturer then [Students] else [])
    + [Courses]
    + (if isAdmin || isStudent then [Enrollments] else [])
    + (if isAdmin || isLecturer then [Grades] else [])
    + (if isStudent then [Transcript] else [])
  }

  /** What the page renders. */
  datatype HomeView = LoadingView | Blank | Welcome(fullName: string, cards: seq<Section>)

  function Home(loading: bool, user: Option<Types.User>): (v: HomeView)
    ensures v.LoadingView? <==> loading
    ensures v.Blank? <==> !loading && user.None?
    ensures v.Welcome? ==> user.Some? && v.fullName == user.value.fullName
    ensures v.Welcome? ==> forall s :: s in v.cards <==> user.value.role in VisibleTo(s)
  {
    if loading then LoadingView
    else match user
      case None => Blank
      case Some(u) => Welcome(u.fullName, Cards(u.role))
  }

  /** The page's effect: a router push to the login page once loading is over and nobody
      is signed in. */
  function Redirect(loading: bool, user: Option<Types.User>): (r: Option<string>)
    ensures r.Some? <==> !loading && user.None?
    ensures r.Some? ==> r.value == LoginPath
  {
    if !loading && user.None? then Some(LoginPath) else None
  }

  /** The redirect is issued exactly when the page renders nothing. */
  lemma RedirectIffBlank(loading: bool, user: Option<Types.User>)
    ensures Redirect(loading, user).Some? <==> Home(loading, user).Blank?
  {
  }

  /** Every card is visible to its table row's roles only; Courses to every role. */
  lemma CardsPerRole()
    ensures Cards(Types.Admin) == [Students, Courses, Enrollments, Grades]
    ensures Cards(Types.Lecturer) == [Students, Courses, Grades]
    ensures Cards(Types.Role.Student) == [Courses, Enrollments, Transcript]
  {
  }
}
