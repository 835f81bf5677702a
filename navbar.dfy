/** The navigation bar (components/Navbar.tsx). Unlike the dashboard it does not look at the
    role: every signed-in user gets the same five links, and none of them is the transcript. */
module Navbar {
  import opened Common
  import Types
  import opened Dashboard
  import Auth

  datatype NavLink = DashboardLink | SectionLink(section: Section)

  datatype NavView = NavView(links: seq<NavLink>, fullName: string)

  /** Dashboard, Students, Courses, Enrollments, Grades, in this order. */
  const Links: seq<NavLink> :=
    [DashboardLink, SectionLink(Students), SectionLink(Courses), SectionLink(Enrollments), SectionLink(Grades)]

  function LinkHref(l: NavLink): string
  {
    match l
    case DashboardLink => "/"
    case SectionLink(s) => Href(s)
  }

  /** `Navbar()`: nothing without a user; otherwise the fixed links and the user's name. */
  function Render(user: Option<Types.User>): (r: Option<NavView>)
    ensures r.None? <==> user.None?
    ensures r.Some? ==> r.value.fullName == user.value.fullName
    ensures r.Some? ==> DashboardLink in r.value.links
    ensures r.Some? ==> forall s :: SectionLink(s) in r.value.links <==> s != Transcript
  {
    match user
    case None => None
    case Some(u) =>
      LinkedSections();
      Some(NavView(Links, u.fullName))
  }

  /** Every section but the transcript has a link. */
  lemma LinkedSections()
    ensures forall s :: SectionLink(s) in Links <==> s != Transcript
  {
    forall s: Section
      ensures SectionLink(s) in Links <==> s != Transcript
    {
      if s != Transcript {
        assert Links[Position(s) + 1] == SectionLink(s);
      }
    }
  }

  /** The links depend on nothing about the user, in particular not on the role. */
  lemma LinksIgnoreRole(u: Types.User, v: Types.User)
    ensures Render(Some(u)).value.links == Render(Some(v)).value.links
  {
  }

  /** Where the two disagree: a student is offered Students and Grades links whose cards the
      dashboard hides, a lecturer an Enrollments link, and a student's Transcript card has no
      link at all. */
  lemma NavbarIsNotRoleGated(u: Types.User)
    requires u.role == Types.Role.Student
    ensures SectionLink(Students) in Render(Some(u)).value.links && Students !in Cards(u.role)
    ensures SectionLink(Grades) in Render(Some(u)).value.links && Grades !in Cards(u.role)
    ensures SectionLink(Transcript) !in Render(Some(u)).value.links && Transcript in Cards(u.role)
    ensures var l := u.(role := Types.Lecturer);
      SectionLink(Enrollments) in Render(Some(l)).value.links && Enrollments !in Cards(l.role)
  {
  }

  /** `handleLogout`: the session logs out first, then the router goes to the login page. */
  method HandleLogout(auth: Auth.AuthProvider) returns (effects: seq<Effect>)
    modifies auth
    ensures auth.Snapshot() == Auth.LoggedOut(old(auth.Snapshot()))
    ensures effects == [Navigate(LoginPath)]
    ensures Render(auth.user).None?
  {
    auth.Logout();
    effects := [Navigate(LoginPath)];
  }
}
