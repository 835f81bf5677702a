# SIAKAD front end: the client-side logic in Dafny

This project models the client-side logic of the SIAKAD front end, a Next.js application for an
academic information system (students, courses, enrollments, grades and transcripts). All of the
real work happens on a backend that this code calls. What the front end decides on its own is
modelled and proved here:

- **Session store** (`Auth`). The provider keeps three cells, `user`, `token` and `loading`,
  plus the origin's `localStorage`, modelled as a `map<string, string>`. The transitions are
  restore-on-start, login, register and logout. They are stated as functions on a `State`
  value, and the class `AuthProvider` performs them step by step, proved equal to those
  functions. A page reload is a new provider built over the same store. The main result is the
  round trip: a reload after a successful sign-in restores the same token and user. It rests
  on a proved round trip of the stored user text (`Json`).
- **Role-based visibility** (`Dashboard`, `Navbar`). The dashboard's cards for each role are
  proved equal to the visibility listed in the page's own comments (app/page.tsx:43, 102, 132
  and 160; the Courses card has no role condition), in layout order. The navbar shows the same
  five links to every signed-in user and never a Transcript link, so it differs from the
  dashboard. That difference is stated as a lemma.
- **List pages** (`Students`, `Courses`, `Enrollments`). The search filter is a
  case-insensitive substring match (ASCII lower-casing, `includes`). It is proved to give an
  order-preserving subsequence holding exactly the matching records, each as many times as it
  was fetched. An empty search keeps everything. Delete-then-splice removes exactly the
  records with the deleted key. The capacity highlight and the enroll link are also covered:
  the link's `courseId` reads back to the course id.
- **Grades** (`Grades`). It covers which actions a draft or final grade offers, how the letter
  colours and the `|| "-"` fallbacks behave, and finalize-then-refetch.
- **Transcript lookup** (`Transcripts`). It covers the empty-NIM guard, the loading/error/
  transcript updates on each side of the `await`, and the summary shown for a transcript.

Each backend call is an input of type `Reply<T>`: either `Ok(data)` or `Fail(ApiError(message))`.
Each `confirm()` answer is a `bool` parameter. Requests, `alert`s and router pushes come back
as a `seq<Effect>`, so "no request is issued" is a checkable statement.

Files: `common.dfy` holds the shared types and the filter. `text.dfy` holds lower-casing,
substring search and decimal text. `types.dfy` models lib/types.ts. `json.dfy` holds the
stored-user codec. `auth.dfy` models contexts/AuthContext.tsx. `dashboard.dfy` models
app/page.tsx and `navbar.dfy` models components/Navbar.tsx. `students.dfy`, `courses.dfy`,
`enrollments.dfy`, `grades.dfy` and `transcript.dfy` each model one page.

Behaviour of the code that the model keeps:
- The transcript is requested from `/api/grades/student/{nim}/transcript`.
- The navbar applies no role gating.
- A stored user text that fails to parse leaves the token set and loading on, because the
  exception comes after the token is adopted and before loading is switched off.
- A successful fetch keeps an earlier error message.

## Model

| member | source | states |
|---|---|---|
| `Types.ParseRole` | lib/types.ts:6 | a role is exactly one of `admin`, `student`, `lecturer`: those three names and no others are accepted, and each maps back to its name |
| `Types.ParseEnrollmentStatus` | lib/types.ts:41 | an enrollment status is exactly one of `active`, `completed`, `dropped` |
| `Types.ParseGradeStatus` | lib/types.ts:60 | a grade status is exactly one of `draft`, `final` |
| `Types.WireNamesRoundTrip` | lib/types.ts:6-60 | each role and status value reads back from its wire name |
| `Common.ErrorMessage` | app/students/page.tsx:23 | `err.response?.data?.message \|\| fallback`: the backend message when present and non-empty, otherwise the fallback; never empty when the fallback is not |
| `Common.Filter` | app/students/page.tsx:29-34 | `Array.filter`: result is an order-preserving subsequence whose every element satisfies the predicate, each satisfying element kept with its full multiplicity |
| `Text.Lower` | app/students/page.tsx:31 | `toLowerCase` on ASCII: same length, each letter A-Z lowered, every other character kept |
| `Text.LowerIdempotent` | app/students/page.tsx:31 | lowering twice is lowering once |
| `Text.IncludesIffOccurs` | app/students/page.tsx:31 | `includes` holds exactly when the needle occurs at some index of the haystack |
| `Text.IncludesEmpty` | app/students/page.tsx:31 | the empty string is included in every string |
| `Text.IntText` | app/enrollments/page.tsx:31 | the decimal text a template literal gives an integer id is non-empty |
| `Text.ReadIntText` | app/enrollments/create/page.tsx:56 | reading back (as `parseInt` does) the decimal text of an integer yields that integer and leaves what follows unread |
| `Json.Serialize` | contexts/AuthContext.tsx:53 | `JSON.stringify(user)`: the stored user text is never empty, so restore sees it as present |
| `Json.Parse` | contexts/AuthContext.tsx:38 | `JSON.parse(storedUser)` as a user: every user it returns is one whose serialisation is exactly the input text, so no other text is read as a user |
| `Json.ParseExactlySerialized` | contexts/AuthContext.tsx:38-53 | `Parse(s)` is `u` exactly when `s` is the text written for `u`: the stored text and the user determine each other |
| `Json.ParseSerialize` | contexts/AuthContext.tsx:38 | `JSON.parse` of the text written at login gives back exactly the user that was written |
| `Auth.Initial` | contexts/AuthContext.tsx:27-29 | on mount user and token are null and loading is true |
| `Auth.Restored` | contexts/AuthContext.tsx:33-40 | both keys present and non-empty with parsable user text: adopts the stored token and user and ends loading; either key missing or empty: user and token untouched, loading ends; user text `Json.Parse` does not accept: token adopted, user untouched, loading still on; the store is never changed |
| `Auth.SignedIn` | contexts/AuthContext.tsx:50-59 | on success writes `"token"` and `"user"` (serialised) to the store and sets token and user to the same values, keeping every other key; on failure changes nothing; loading is never touched |
| `Auth.LoggedOut` | contexts/AuthContext.tsx:78-83 | removes exactly the two keys, sets user and token to null, leaves loading and the other keys as they were |
| `Auth.RestoreAfterSignIn` | contexts/AuthContext.tsx:52-53 | reload after a successful sign-in with a non-empty token restores exactly the token and user it set |
| `Auth.EmptyTokenNotRestored` | contexts/AuthContext.tsx:36 | an empty access token is written but a reload does not adopt it (the empty string is falsy) |
| `Auth.RestoreAfterLogout` | contexts/AuthContext.tsx:78-83 | a reload after logout comes up with no user and no token, and loading over |
| `Auth.LogoutIdempotent` | contexts/AuthContext.tsx:78-83 | logging out twice is logging out once |
| `Auth.RestoreSettles` | contexts/AuthContext.tsx:40 | restore ends loading unless `JSON.parse` throws |
| `Auth.UseAuth` | contexts/AuthContext.tsx:94-99 | `useAuth` returns the provider in scope, and fails with "useAuth must be used within an AuthProvider" exactly when there is none |
| `Auth.AuthProvider.constructor` | contexts/AuthContext.tsx:27-29 | the provider starts in the initial state over the persisted store |
| `Auth.AuthProvider.Restore` | contexts/AuthContext.tsx:31-41 | the mount effect moves the provider to `Restored` of its old state and reports the parse exception exactly when the user text does not parse |
| `Auth.AuthProvider.Adopt` | contexts/AuthContext.tsx:50-59 | moves the provider to `SignedIn` of its old state; a failure is re-thrown unchanged |
| `Auth.AuthProvider.Login` | contexts/AuthContext.tsx:43-60 | issues `POST /auth/login`, then behaves as `SignedIn`, re-throwing a failure |
| `Auth.AuthProvider.Register` | contexts/AuthContext.tsx:62-76 | issues `POST /auth/register`, then the same contract as login |
| `Auth.AuthProvider.Logout` | contexts/AuthContext.tsx:78-83 | moves the provider to `LoggedOut` of its old state; it cannot fail |
| `Auth.ReloadAfterLogin` | contexts/AuthContext.tsx:31-60 | on objects: sign in on one page load, reload over the same store, and the second provider holds the same token and user, with loading over |
| `Dashboard.Cards` | app/page.tsx:44-161 | the cards rendered for a role are exactly the sections the page's comments list for that role (Students for admin and lecturer, Courses for all, Enrollments for admin and student, Grades for admin and lecturer, Transcript for student), in layout order |
| `Dashboard.CardsPerRole` | app/page.tsx:44-161 | the card list of each of the three roles, written out |
| `Dashboard.Home` | app/page.tsx:18-35 | loading shows only the loading view; not loading and no user renders nothing; otherwise greets the user by full name with the role's cards |
| `Dashboard.Redirect` | app/page.tsx:12-16 | a push to `/login` is issued exactly when loading is over and there is no user |
| `Dashboard.RedirectIffBlank` | app/page.tsx:12-28 | the redirect is issued exactly when the page renders nothing |
| `Navbar.Render` | components/Navbar.tsx:16-58 | nothing without a user; otherwise the user's full name, the Dashboard link, and a link for every section except Transcript |
| `Navbar.LinksIgnoreRole` | components/Navbar.tsx:27-53 | any two signed-in users get the same links |
| `Navbar.NavbarIsNotRoleGated` | components/Navbar.tsx:27-53 | the navbar offers a student Students and Grades links whose cards the dashboard hides, and a lecturer an Enrollments link whose card is hidden; the student's Transcript card has no navbar link |
| `Navbar.HandleLogout` | components/Navbar.tsx:11-14 | logs the session out, then emits the push to `/login`; afterwards the navbar renders nothing |
| `Students.FilteredStudents` | app/students/page.tsx:29-34 | the shown students are the fetched ones whose lower-cased name, NIM or major includes the lower-cased term, in fetched order and multiplicity |
| `Students.ShownIffMatches` | app/students/page.tsx:29-34 | a student is shown exactly when it was fetched and matches |
| `Students.EmptySearchShowsAll` | app/students/page.tsx:29-34 | an empty search term shows every fetched student, in order |
| `Students.SearchIgnoresCase` | app/students/page.tsx:29-34 | lower-casing the term does not change what matches |
| `Students.OnlyNameNimMajorSearched` | app/students/page.tsx:29-34 | two students with the same name, NIM and major match the same terms, whatever their email, angkatan and other fields |
| `Students.WithoutNim` | app/students/page.tsx:41 | the splice removes every record with the deleted NIM and keeps all others in order and multiplicity |
| `Students.StudentsPage.constructor` | app/students/page.tsx:9-13 | an empty list, loading, no error, empty search term |
| `Students.StudentsPage.SetSearchTerm` | app/students/page.tsx:78 | the search box sets the term and nothing else |
| `Students.StudentsPage.FetchStudents` | app/students/page.tsx:18-27 | issues `GET /api/students`; success replaces the list (error kept); failure keeps the list and sets the backend message or "Gagal memuat data mahasiswa"; loading ends either way |
| `Students.StudentsPage.DeleteStudent` | app/students/page.tsx:36-45 | declined: no request, nothing changes; confirmed: `DELETE /api/students/{nim}`, then the splice on success, or an alert with the backend message or "Gagal menghapus mahasiswa" and no change on failure |
| `Courses.FilteredCourses` | app/courses/page.tsx:29-33 | the shown courses are those whose lower-cased name or code includes the lower-cased term, in order and multiplicity |
| `Courses.ShownIffMatches` | app/courses/page.tsx:29-33 | a course is shown exactly when it was fetched and matches |
| `Courses.EmptySearchShowsAll` | app/courses/page.tsx:29-33 | an empty search term shows every course, in order |
| `Courses.OnlyNameCodeSearched` | app/courses/page.tsx:29-33 | only the course name and code are searched |
| `Courses.CapacityTone` | app/courses/page.tsx:93 | the capacity figure is red exactly when `currentEnrollment >= maxCapacity`, green otherwise |
| `Courses.EnrollHref` | app/courses/page.tsx:111 | the Enroll link is `/enrollments/create?courseId=` followed by text that reads back to exactly the course's id |
| `Courses.CoursesPage.constructor` | app/courses/page.tsx:9-13 | an empty list, loading, no error, empty search term |
| `Courses.CoursesPage.SetSearchTerm` | app/courses/page.tsx:66 | the search box sets the term and nothing else |
| `Courses.CoursesPage.FetchCourses` | app/courses/page.tsx:18-27 | issues `GET /api/courses`; success replaces the list; failure sets the backend message or "Gagal memuat data mata kuliah"; loading ends either way |
| `Enrollments.StatusTone` | app/enrollments/page.tsx:104-110 | active is green, completed blue, and dropped (the remaining case) red, one-to-one |
| `Enrollments.WithoutId` | app/enrollments/page.tsx:32 | the splice removes every enrollment with the cancelled id and keeps the rest in order and multiplicity |
| `Enrollments.EnrollmentsPage.constructor` | app/enrollments/page.tsx:8-10 | an empty list, loading, no error |
| `Enrollments.EnrollmentsPage.FetchEnrollments` | app/enrollments/page.tsx:16-25 | issues `GET /api/enrollments`; success replaces the list; failure sets the backend message or "Gagal memuat data enrollment"; loading ends either way |
| `Enrollments.EnrollmentsPage.HandleDelete` | app/enrollments/page.tsx:27-36 | declined: no request, nothing changes; confirmed: `DELETE /api/enrollments/{id}`, then the splice on success, or an alert with the backend message or "Gagal membatalkan enrollment" and no change on failure |
| `Grades.Actions` | app/grades/page.tsx:153-171 | a draft offers exactly its Edit link and Finalize button and no Locked label; a final grade offers only Locked; Locked shows exactly for final grades, and Locked and Finalize never appear together |
| `Grades.ScoreCell` | app/grades/page.tsx:110-119 | a component score shows as "-" exactly when it is missing or zero, otherwise as the number |
| `Grades.FinalGradeCell` | app/grades/page.tsx:122 | the final grade shows as "-" only when missing; a zero final grade is still shown |
| `Grades.ZeroShownOnlyAsFinalGrade` | app/grades/page.tsx:110-122 | a zero score is indistinguishable from a missing one, a zero final grade is not |
| `Grades.LetterText` | app/grades/page.tsx:138 | the letter is shown as is, or "-" when missing or empty |
| `Grades.LetterTone` | app/grades/page.tsx:127-135 | A, B, C, D each get their own colour (green, blue, yellow, orange); any other letter or none is red |
| `Grades.StatusTone` | app/grades/page.tsx:144-146 | the status badge is green exactly for final, grey exactly for draft |
| `Grades.GradesPage.constructor` | app/grades/page.tsx:9-11 | an empty list, loading, no error |
| `Grades.GradesPage.FetchGrades` | app/grades/page.tsx:17-26 | issues `GET /api/grades`; success replaces the list; failure sets the backend message or "Gagal memuat data nilai"; loading ends either way |
| `Grades.GradesPage.FinalizeGrade` | app/grades/page.tsx:28-38 | declined: no request, nothing changes; confirmed and the POST fails: an alert with the backend message or "Gagal memfinalisasi nilai" and no change; confirmed and it succeeds: POST, the refetching GET, the success alert, and the grade list as the refetch leaves it |
| `Transcripts.TranscriptPath` | app/grades/transcript/page.tsx:23 | the request path is `/api/grades/student/` + NIM + `/transcript`, the NIM recoverable verbatim between them |
| `Transcripts.RowOf` | app/grades/transcript/page.tsx:127-156 | `grade.course?.x`: with a course, the row shows its code, name and credits; without one, all three are absent; semester, academic year and letter are the grade's own, and the letter is coloured as in the grade list |
| `Transcripts.Display` | app/grades/transcript/page.tsx:74-93 | the displayed course count equals the number of grades and of rows, one row per grade in order; name, NIM, major and total credits shown as given |
| `Transcripts.TranscriptPage.constructor` | app/grades/transcript/page.tsx:8-11 | empty NIM, no transcript, not loading, no error |
| `Transcripts.TranscriptPage.SetNim` | app/grades/transcript/page.tsx:43 | the NIM field sets the NIM and nothing else |
| `Transcripts.TranscriptPage.Begin` | app/grades/transcript/page.tsx:13-23 | empty NIM: error "NIM harus diisi", no request, loading and transcript untouched; otherwise loading on, error cleared, `GET` of the transcript path issued |
| `Transcripts.TranscriptPage.Complete` | app/grades/transcript/page.tsx:24-30 | success shows the reply's transcript; failure sets the backend message or "Gagal memuat transkrip" and clears the transcript; loading off either way |
| `Transcripts.TranscriptPage.FetchTranscript` | app/grades/transcript/page.tsx:13-31 | the whole handler: the empty-NIM guard, or one request followed by the success or failure outcome with loading off and, on success, no error |

## Left out

- HTTP client, bearer-token attachment and REST transport (lib/api is not part of this model). Each reply is a `Reply<T>` input, and only the request's verb and path are recorded.
- Request bodies are not modelled. The login credentials and the registration data are parameters of `Login` and `Register` that do not reach the model.
- Async interleaving and overlapping requests. Each handler is atomic, except the transcript lookup, which is split at its `await`. `FinalizeGrade` applies the unawaited refetch's reply within the same step.
- React's batching of state updates and its rendering of an exception thrown in an effect. The cells change in program order.
- `confirm()`, `alert()` and router navigation are a `bool` input and emitted `Effect`s.
- `JSON.stringify` and `JSON.parse`: a JSON-shaped codec for the five `User` fields stands in for them. It writes the fields in declaration order with no whitespace, and it escapes only `"` and `\` (not control characters).
- Json.Parse: accepts only the exact text `Serialize` writes. Any other user text is modelled as a `JSON.parse` throw, so `Restored` adopts the token and keeps loading on. This covers valid JSON that `JSON.parse` accepts: whitespace, another key order, extra fields, other escapes, `null`, or a user whose role is not one of the three names. For such text the source sets the parsed value as the user and ends loading.
- Unicode `toLowerCase`. Only ASCII letters are lowered.
- `toFixed(2)` for final grades, grade points and the cumulative GPA, because it is floating-point formatting. `Cell.Fixed` carries the number, and the transcript summary omits the GPA figure.
- JavaScript numbers are modelled as `int` for ids and counts and `real` for scores. `NaN` is not modelled, nor a backend `message` that is not a string.
- The loading, table and empty-list rendering of the list pages, the detail and edit links other than the grade Edit link, JSX markup, Tailwind classes and SVG icons. Colours are modelled only as a `Tone`.
- app/students/create/page.tsx and app/enrollments/create/page.tsx. All they do is bind form fields and send one POST. Only the `parseInt` of the enroll form's `courseId` is used, by `Courses.EnrollHref`.
- Server-side rules: capacity enforcement, GPA computation, finalize locking.
