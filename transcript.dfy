/** The transcript page (app/grades/transcript/page.tsx): look up a student's transcript by
    NIM, and the summary and rows it then displays.

    `fetchTranscript` runs in two parts around its `await`: `Begin` (the empty-NIM guard, or
    loading on and the error cleared) and `Complete` (the reply, then loading off). The page
    is rendered in between, with the search button disabled; `FetchTranscript` is the two
    run back to back. */
module Transcripts {
  import opened Common
  import opened Types
  import Grades

  const MissingNim: string := "NIM harus diisi"
  const LoadFailed: string := "Gagal memuat transkrip"
  const PathPrefix: string := "/api/grades/student/"
  const PathSuffix: string := "/transcript"

  /** The request path; the NIM sits verbatim between the fixed prefix and suffix. */
  function TranscriptPath(nim: string): (r: string)
    ensures |r| == |PathPrefix| + |nim| + |PathSuffix|
    ensures r[..|PathPrefix|] == PathPrefix
    ensures r[|PathPrefix|..|r| - |PathSuffix|] == nim
    ensures r[|r| - |PathSuffix|..] == PathSuffix
  {
    PathPrefix + nim + PathSuffix
  }

  /** One row of the grade history. */
  datatype Row = Row(
    courseCode: Option<string>,
    courseName: Option<string>,
    credits: Option<int>,
    semester: string,
    academicYear: string,
    letter: Option<string>,
    letterTone: Tone)

  /** What the page shows once a transcript is loaded (the `toFixed(2)` figures are left out). */
  datatype View = View(
    studentName: string,
    nim: string,
    major: string,
    totalCredits: int,
    courseCount: int,
    rows: seq<Row>)

  /** `grade.course?.x` is absent exactly when the grade carries no course. */
  function RowOf(g: Grade): (r: Row)
    ensures r.letterTone == Grades.LetterTone(g.letterGrade)
    ensures g.course.Some? ==>
      && r.courseCode == Some(g.course.value.courseCode)
      && r.courseName == Some(g.course.value.courseName)
      && r.credits == Some(g.course.value.credits)
    ensures g.course.None? ==> r.courseCode.None? && r.courseName.None? && r.credits.None?
    ensures r.semester == g.semester && r.academicYear == g.academicYear
    ensures r.letter == g.letterGrade
  {
    match g.course
    case Some(c) =>
      Row(Some(c.courseCode), Some(c.courseName), Some(c.credits), g.semester, g.academicYear,
          g.letterGrade, Grades.LetterTone(g.letterGrade))
    case None =>
      Row(None, None, None, g.semester, g.academicYear, g.letterGrade, Grades.LetterTone(g.letterGrade))
  }

  /** The displayed course count is the number of grades, one row per grade in order. */
  function Display(t: Transcript): (v: View)
    ensures v.courseCount == |t.grades| == |v.rows|
    ensures forall i :: 0 <= i < |t.grades| ==> v.rows[i] == RowOf(t.grades[i])
    ensures v.nim == t.nim && v.studentName == t.studentName && v.major == t.major
    ensures v.totalCredits == t.totalCredits
  {
    View(t.studentName, t.nim, t.major, t.totalCredits, |t.grades|,
         seq(|t.grades|, i requires 0 <= i < |t.grades| => RowOf(t.grades[i])))
  }

  class TranscriptPage {
    var nim: string
    var transcript: Option<Transcript>
    var loading: bool
    var error: string

    constructor ()
      ensures nim == "" && transcript.None? && !loading && error == ""
    {
      nim, transcript, loading, error := "", None, false, "";
    }

    /** The NIM field's `onChange`. */
    method SetNim(value: string)
      modifies this
      ensures nim == value
      ensures transcript == old(transcript) && loading == old(loading) && error == old(error)
    {
      nim := value;
    }

    /** Up to the `await`: with an empty NIM only the error is set and nothing is requested;
        otherwise loading goes on, the error is cleared and the request is issued. */
    method Begin() returns (effects: seq<Effect>)
      modifies this
      ensures nim == old(nim) && transcript == old(transcript)
      ensures old(nim) == "" ==> effects == [] && error == MissingNim && loading == old(loading)
      ensures old(nim) != "" ==> effects == [Request(Get, TranscriptPath(nim))] && loading && error == ""
    {
      if nim == "" {
        error := MissingNim;
        return [];
      }
      loading := true;
      error := "";
      effects := [Request(Get, TranscriptPath(nim))];
    }

    /** After the `await`: success shows the transcript, failure sets the error and drops any
        transcript shown before; loading goes off either way. */
    method Complete(reply: Reply<Transcript>)
      modifies this
      ensures nim == old(nim) && !loading
      ensures reply.Ok? ==> transcript == Some(reply.data) && error == old(error)
      ensures reply.Fail? ==> transcript.None? && error == ErrorMessage(reply.error, LoadFailed)
    {
      match reply {
        case Ok(data) =>
          transcript := Some(data);
        case Fail(e) =>
          error := ErrorMessage(e, LoadFailed);
          transcript := None;
      }
      loading := false;
    }

    /** `fetchTranscript` as one step. */
    method FetchTranscript(reply: Reply<Transcript>) returns (effects: seq<Effect>)
      modifies this
      ensures nim == old(nim)
      ensures old(nim) == "" ==>
        effects == [] && error == MissingNim && loading == old(loading) && transcript == old(transcript)
      ensures old(nim) != "" ==> effects == [Request(Get, TranscriptPath(nim))] && !loading
      ensures old(nim) != "" && reply.Ok? ==> transcript == Some(reply.data) && error == ""
      ensures old(nim) != "" && reply.Fail? ==>
        transcript.None? && error == ErrorMessage(reply.error, LoadFailed) && error != ""
    {
      effects := Begin();
      if effects != [] {
        Complete(reply);
      }
    }
  }
}
