/** The course catalogue page (app/courses/page.tsx): the search filter over name and code,
    the capacity highlight and the enroll link. */
module Courses {
  import opened Common
  import opened Text
  import opened Types

  const CoursesPath: string := "/api/courses"
  const LoadFailed: string := "Gagal memuat data mata kuliah"
  /** The enroll form's address up to the value of its `courseId` query parameter. */
  const EnrollQuery: string := "/enrollments/create?courseId="

  /** The card filter: the lower-cased term occurs in the lower-cased name or code. */
  predicate Matches(c: Course, term: string)
  {
    var t := Lower(term);
    Includes(Lower(c.courseName), t) || Includes(Lower(c.courseCode), t)
  }

  /** `filteredCourses`. */
  function FilteredCourses(courses: seq<Course>, term: string): (r: seq<Course>)
    ensures IsSubsequence(r, courses)
    ensures forall i :: 0 <= i < |r| ==> Matches(r[i], term)
    ensures forall x :: multiset(r)[x] == if Matches(x, term) then multiset(courses)[x] else 0
  {
    Filter(courses, c => Matches(c, term))
  }

  lemma ShownIffMatches(courses: seq<Course>, term: string, x: Course)
    ensures x in FilteredCourses(courses, term) <==> x in courses && Matches(x, term)
  {
    FilterMembership(courses, c => Matches(c, term), x);
  }

  /** With an empty search box every course is listed. */
  lemma EmptySearchShowsAll(courses: seq<Course>)
    ensures FilteredCourses(courses, "") == courses
  {
    forall c: Course ensures Matches(c, "") {
      IncludesEmpty(Lower(c.courseName));
    }
    FilterKeepsAll(courses, c => Matches(c, ""));
  }

  /** Lecturer, credits, semester and the rest are never searched. */
  lemma OnlyNameCodeSearched(c: Course, d: Course, term: string)
    requires c.courseName == d.courseName && c.courseCode == d.courseCode
    ensures Matches(c, term) == Matches(d, term)
  {
  }

  /** The capacity figure is drawn in the alarm colour exactly when the course is full. */
  function CapacityTone(c: Course): (t: Tone)
    ensures t == Red <==> c.currentEnrollment >= c.maxCapacity
    ensures t != Red ==> t == Green
  {
    if c.currentEnrollment >= c.maxCapacity then Red else Green
  }

  /** The Enroll button's target: the value of `courseId` reads back, as the enroll form's
      `parseInt` does, to exactly this course's id. */
  function EnrollHref(c: Course): (r: string)
    ensures StartsWith(r, EnrollQuery)
    ensures ReadInt(r[|EnrollQuery|..]) == Some((c.id, ""))
  {
    var r := EnrollQuery + IntText(c.id);
    ReadIntText(c.id, "");
    assert IntText(c.id) + "" == IntText(c.id);
    assert r[..|EnrollQuery|] == EnrollQuery;
    assert r[|EnrollQuery|..] == IntText(c.id);
    r
  }

  class CoursesPage {
    var courses: seq<Course>
    var loading: bool
    var error: string
    var searchTerm: string

    constructor ()
      ensures courses == [] && loading && error == "" && searchTerm == ""
    {
      courses, loading, error, searchTerm := [], true, "", "";
    }

    function Shown(): seq<Course>
      reads this
    {
      FilteredCourses(courses, searchTerm)
    }

    method SetSearchTerm(term: string)
      modifies this
      ensures searchTerm == term
      ensures courses == old(courses) && loading == old(loading) && error == old(error)
    {
      searchTerm := term;
    }

    /** `fetchCourses`. */
    method FetchCourses(reply: Reply<seq<Course>>) returns (effects: seq<Effect>)
      modifies this
      ensures effects == [Request(Get, CoursesPath)]
      ensures !loading && searchTerm == old(searchTerm)
      ensures reply.Ok? ==> courses == reply.data && error == old(error)
      ensures reply.Fail? ==> courses == old(courses) && error == ErrorMessage(reply.error, LoadFailed)
    {
      effects := [Request(Get, CoursesPath)];
      match reply {
        case Ok(data) => courses := data;
        case Fail(e) => error := ErrorMessage(e, LoadFailed);
      }
      loading := false;
    }
  }
}
