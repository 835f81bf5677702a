/** The student list page (app/students/page.tsx): the fetched list, the search filter over
    name, NIM and major, and delete-then-splice. */
module Students {
  import opened Common
  import opened Text
  import opened Types

  const StudentsPath: string := "/api/students"
  const LoadFailed: string := "Gagal memuat data mahasiswa"
  const DeleteFailed: string := "Gagal menghapus mahasiswa"

  /** The row filter: the lower-cased term occurs in the lower-cased name, NIM or major. */
  predicate Matches(s: Student, term: string)
  {
    var t := Lower(term);
    Includes(Lower(s.name), t) || Includes(Lower(s.nim), t) || Includes(Lower(s.major), t)
  }

  /** `filteredStudents`: the matching students, in their fetched order, each as often as
      it was fetched. */
  function FilteredStudents(students: seq<Student>, term: string): (r: seq<Student>)
    ensures IsSubsequence(r, students)
    ensures forall i :: 0 <= i < |r| ==> Matches(r[i], term)
    ensures forall x :: multiset(r)[x] == if Matches(x, term) then multiset(students)[x] else 0
  {
    Filter(students, s => Matches(s, term))
  }

  /** A student is shown exactly when fetched and matching. */
  lemma ShownIffMatches(students: seq<Student>, term: string, x: Student)
    ensures x in FilteredStudents(students, term) <==> x in students && Matches(x, term)
  {
    FilterMembership(students, s => Matches(s, term), x);
  }

  /** With an empty search box every fetched student is listed. */
  lemma EmptySearchShowsAll(students: seq<Student>)
    ensures FilteredStudents(students, "") == students
  {
    forall s: Student ensures Matches(s, "") {
      IncludesEmpty(Lower(s.name));
    }
    FilterKeepsAll(students, s => Matches(s, ""));
  }

  /** Case does not matter in the search term. */
  lemma SearchIgnoresCase(s: Student, term: string)
    ensures Matches(s, Lower(term)) == Matches(s, term)
  {
    LowerIdempotent(term);
  }

  /** Email, angkatan and the other fields are never searched. */
  lemma OnlyNameNimMajorSearched(s: Student, t: Student, term: string)
    requires s.name == t.name && s.nim == t.nim && s.major == t.major
    ensures Matches(s, term) == Matches(t, term)
  {
  }

  /** The splice after a successful delete: every record with that NIM goes, the others stay
      in order and multiplicity. */
  function WithoutNim(students: seq<Student>, nim: string): (r: seq<Student>)
    ensures IsSubsequence(r, students)
    ensures forall i :: 0 <= i < |r| ==> r[i].nim != nim
    ensures forall x: Student :: x.nim != nim ==> multiset(r)[x] == multiset(students)[x]
  {
    Filter(students, (s: Student) => s.nim != nim)
  }

  function DeletePath(nim: string): string
  {
    StudentsPath + "/" + nim
  }

  class StudentsPage {
    var students: seq<Student>
    var loading: bool
    var error: string
    var searchTerm: string

    constructor ()
      ensures students == [] && loading && error == "" && searchTerm == ""
    {
      students, loading, error, searchTerm := [], true, "", "";
    }

    /** The rows the table shows. */
    function Shown(): seq<Student>
      reads this
    {
      FilteredStudents(students, searchTerm)
    }

    /** The search box's `onChange`. */
    method SetSearchTerm(term: string)
      modifies this
      ensures searchTerm == term
      ensures students == old(students) && loading == old(loading) && error == old(error)
    {
      searchTerm := term;
    }

    /** `fetchStudents`: success replaces the list and leaves any earlier error in place;
        failure keeps the list and sets the error; loading ends either way. */
    method FetchStudents(reply: Reply<seq<Student>>) returns (effects: seq<Effect>)
      modifies this
      ensures effects == [Request(Get, StudentsPath)]
      ensures !loading && searchTerm == old(searchTerm)
      ensures reply.Ok? ==> students == reply.data && error == old(error)
      ensures reply.Fail? ==> students == old(students) && error == ErrorMessage(reply.error, LoadFailed)
    {
      effects := [Request(Get, StudentsPath)];
      match reply {
        case Ok(data) => students := data;
        case Fail(e) => error := ErrorMessage(e, LoadFailed);
      }
      loading := false;
    }

    /** `deleteStudent(nim)`; `confirmed` is the answer to the confirmation dialog. */
    method DeleteStudent(nim: string, confirmed: bool, reply: Reply<()>) returns (effects: seq<Effect>)
      modifies this
      ensures loading == old(loading) && error == old(error) && searchTerm == old(searchTerm)
      ensures !confirmed ==> effects == [] && students == old(students)
      ensures confirmed && reply.Ok? ==>
        effects == [Request(Delete, DeletePath(nim))] && students == WithoutNim(old(students), nim)
      ensures confirmed && reply.Fail? ==>
        effects == [Request(Delete, DeletePath(nim)), Alert(ErrorMessage(reply.error, DeleteFailed))]
        && students == old(students)
    {
      if !confirmed {
        return [];
      }
      effects := [Request(Delete, DeletePath(nim))];
      match reply
      case Ok(_) => students := WithoutNim(students, nim);
      case Fail(e) => effects := effects + [Alert(ErrorMessage(e, DeleteFailed))];
    }
  }
}
