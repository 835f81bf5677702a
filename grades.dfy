/** The grade list page (app/grades/page.tsx): which actions a grade row offers, how scores
    and letters are displayed, and finalize-then-refetch. */
module Grades {
  import opened Common
  import opened Text
  import opened Types

  const GradesPath: string := "/api/grades"
  const LoadFailed: string := "Gagal memuat data nilai"
  const FinalizeFailed: string := "Gagal memfinalisasi nilai"
  const Finalized: string := "Nilai berhasil difinalisasi!"

  function EditHref(id: int): string
  {
    "/grades/" + IntText(id) + "/edit"
  }

  function FinalizePath(id: int): string
  {
    GradesPath + "/" + IntText(id) + "/finalize"
  }

  datatype Action = Edit(href: string) | Finalize(id: int) | Locked

  /** The action cell, written as the page's two independent conditionals. A draft offers
      its Edit link and Finalize button; a final grade shows only "Locked". */
  function Actions(g: Grade): (r: seq<Action>)
    ensures g.status == Draft ==> Edit(EditHref(g.id)) in r && Finalize(g.id) in r && Locked !in r && |r| == 2
    ensures g.status == Final ==> forall i :: 0 <= i < |r| ==> r[i] == Locked
    ensures Locked in r <==> g.status == Final
    ensures (Locked in r) != (Finalize(g.id) in r)
  {
    (if g.status == Draft then [Edit(EditHref(g.id)), Finalize(g.id)] else [])
    + (if g.status == Final then [Locked] else [])
  }

  /** What a table cell displays: a dash, a number as is, or a number through `toFixed(2)`. */
  datatype Cell = Dash | Number(value: real) | Fixed(value: real)

  /** `score || "-"` for the four component scores: a missing score and a zero score both
      show as a dash. */
  function ScoreCell(score: Option<real>): (c: Cell)
    ensures c == Dash <==> score.None? || score.value == 0.0
    ensures c != Dash ==> c == Number(score.value)
  {
    match score
    case Some(v) => if v != 0.0 then Number(v) else Dash
    case None => Dash
  }

  /** `finalGrade?.toFixed(2) || "-"`: the text "0.00" is not empty, so only a missing final
      grade shows as a dash. */
  function FinalGradeCell(finalGrade: Option<real>): (c: Cell)
    ensures c == Dash <==> finalGrade.None?
    ensures c != Dash ==> c == Fixed(finalGrade.value)
  {
    match finalGrade
    case Some(v) => Fixed(v)
    case None => Dash
  }

  /** The two fallbacks differ on zero: a zero final grade is shown, a zero score is not. */
  lemma ZeroShownOnlyAsFinalGrade()
    ensures ScoreCell(Some(0.0)) == ScoreCell(None) == Dash
    ensures FinalGradeCell(Some(0.0)) != FinalGradeCell(None)
  {
  }

  /** `letterGrade || "-"`: the letter, or a dash when it is missing or empty. */
  function LetterText(letter: Option<string>): (r: string)
    ensures r == "-" <==> letter.None? || letter.value in {"", "-"}
    ensures r != "-" ==> r == letter.value
  {
    match letter
    case Some(l) => if l != "" then l else "-"
    case None => "-"
  }

  /** The letter badge colour: A, B, C and D each have their own, anything else (or no letter)
      is red. */
  function LetterTone(letter: Option<string>): (t: Tone)
    ensures t == Green <==> letter == Some("A")
    ensures t == Blue <==> letter == Some("B")
    ensures t == Yellow <==> letter == Some("C")
    ensures t == Orange <==> letter == Some("D")
    ensures t == Red <==> letter !in {Some("A"), Some("B"), Some("C"), Some("D")}
  {
    if letter == Some("A") then Green
    else if letter == Some("B") then Blue
    else if letter == Some("C") then Yellow
    else if letter == Some("D") then Orange
    else Red
  }

  /** The status badge: green once final, grey while draft. */
  function StatusTone(st: GradeStatus): (t: Tone)
    ensures t == Green <==> st == Final
    ensures t == Gray <==> st == Draft
  {
    match st
    case Final => Green
    case Draft => Gray
  }

  class GradesPage {
    var grades: seq<Grade>
    var loading: bool
    var error: string

    constructor ()
      ensures grades == [] && loading && error == ""
    {
      grades, loading, error := [], true, "";
    }

    /** `fetchGrades`. */
    method FetchGrades(reply: Reply<seq<Grade>>) returns (effects: seq<Effect>)
      modifies this
      ensures effects == [Request(Get, GradesPath)]
      ensures !loading
      ensures reply.Ok? ==> grades == reply.data && error == old(error)
      ensures reply.Fail? ==> grades == old(grades) && error == ErrorMessage(reply.error, LoadFailed)
    {
      effects := [Request(Get, GradesPath)];
      match reply {
        case Ok(data) => grades := data;
        case Fail(e) => error := ErrorMessage(e, LoadFailed);
      }
      loading := false;
    }

    /** `finalizeGrade(id)`. The refetch it starts is not awaited, so the success alert comes
        right after the GET is issued; `refetch` is that GET's reply. */
    method FinalizeGrade(id: int, confirmed: bool, reply: Reply<()>, refetch: Reply<seq<Grade>>)
      returns (effects: seq<Effect>)
      modifies this
      ensures !confirmed || reply.Fail? ==>
        grades == old(grades) && loading == old(loading) && error == old(error)
      ensures !confirmed ==> effects == []
      ensures confirmed && reply.Fail? ==>
        effects == [Request(Post, FinalizePath(id)), Alert(ErrorMessage(reply.error, FinalizeFailed))]
      ensures confirmed && reply.Ok? ==>
        && effects == [Request(Post, FinalizePath(id)), Request(Get, GradesPath), Alert(Finalized)]
        && !loading
        && grades == (if refetch.Ok? then refetch.data else old(grades))
        && error == (if refetch.Ok? then old(error) else ErrorMessage(refetch.error, LoadFailed))
    {
      if !confirmed {
        return [];
      }
      effects := [Request(Post, FinalizePath(id))];
      match reply {
        case Ok(_) =>
          var fetched := FetchGrades(refetch);
          effects := effects + fetched + [Alert(Finalized)];
        case Fail(e) =>
          effects := effects + [Alert(ErrorMessage(e, FinalizeFailed))];
      }
    }
  }
}
