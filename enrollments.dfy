/** The enrollment list page (app/enrollments/page.tsx): the fetched list, cancel-then-splice
    and the status badge. */
module Enrollments {
  import opened Common
  import opened Text
  import opened Types

  const EnrollmentsPath: string := "/api/enrollments"
  const LoadFailed: string := "Gagal memuat data enrollment"
  const DeleteFailed: string := "Gagal membatalkan enrollment"

  /** The status badge: active green, completed blue, anything else (dropped) red. */
  function StatusTone(st: EnrollmentStatus): (t: Tone)
    ensures t == Green <==> st == Active
    ensures t == Blue <==> st == Completed
    ensures t == Red <==> st == Dropped
  {
    match st
    case Active => Green
    case Completed => Blue
    case _ => Red
  }

  /** The splice after a successful cancel: every enrollment with that id goes, the others
      stay in order and multiplicity. */
  function WithoutId(enrollments: seq<Enrollment>, id: int): (r: seq<Enrollment>)
    ensures IsSubsequence(r, enrollments)
    ensures forall i :: 0 <= i < |r| ==> r[i].id != id
    ensures forall x: Enrollment :: x.id != id ==> multiset(r)[x] == multiset(enrollments)[x]
  {
    Filter(enrollments, (e: Enrollment) => e.id != id)
  }

  function DeletePath(id: int): string
  {
    EnrollmentsPath + "/" + IntText(id)
  }

  class EnrollmentsPage {
    var enrollments: seq<Enrollment>
    var loading: bool
    var error: string

    constructor ()
      ensures enrollments == [] && loading && error == ""
    {
      enrollments, loading, error := [], true, "";
    }

    /** `fetchEnrollments`. */
    method FetchEnrollments(reply: Reply<seq<Enrollment>>) returns (effects: seq<Effect>)
      modifies this
      ensures effects == [Request(Get, EnrollmentsPath)]
      ensures !loading
      ensures reply.Ok? ==> enrollments == reply.data && error == old(error)
      ensures reply.Fail? ==> enrollments == old(enrollments) && error == ErrorMessage(reply.error, LoadFailed)
    {
      effects := [Request(Get, EnrollmentsPath)];
      match reply {
        case Ok(data) => enrollments := data;
        case Fail(e) => error := ErrorMessage(e, LoadFailed);
      }
      loading := false;
    }

    /** `handleDelete(id)`; `confirmed` is the answer to the confirmation dialog. */
    method HandleDelete(id: int, confirmed: bool, reply: Reply<()>) returns (effects: seq<Effect>)
      modifies this
      ensures loading == old(loading) && error == old(error)
      ensures !confirmed ==> effects == [] && enrollments == old(enrollments)
      ensures confirmed && reply.Ok? ==>
        effects == [Request(Delete, DeletePath(id))] && enrollments == WithoutId(old(enrollments), id)
      ensures confirmed && reply.Fail? ==>
        effects == [Request(Delete, DeletePath(id)), Alert(ErrorMessage(reply.error, DeleteFailed))]
        && enrollments == old(enrollments)
    {
      if !confirmed {
        return [];
      }
      effects := [Request(Delete, DeletePath(id))];
      match reply {
        case Ok(_) => enrollments := WithoutId(enrollments, id);
        case Fail(e) => effects := effects + [Alert(ErrorMessage(e, DeleteFailed))];
      }
    }
  }
}
