/**
  The state of the Card component and its event handlers, written as pure
  reducers. The component's six `useState` fields are one record; each
  handler, or each branch of a handler that runs once a server reply is in,
  is a function from the old record to the new one. The server reply itself
  is an input: fetching, promises and timers are not modelled.
 */
module CardComponent {
  import opened Documents

  /** A card on the page: a static category (no id) or a stored project.
      Icons are not modelled. */
  datatype Card = Card(id: Option<Id>, title: Option<string>, description: Option<string>)

  /** The three static category cards shown before any project is fetched. */
  const InitialCourses: seq<Card> := [
    Card(None, Some("AI/ML"), Some("Learn Artificial Intelligence and Machine Learning concepts.")),
    Card(None, Some("Web Development"), Some("Dive into modern web development technologies.")),
    Card(None, Some("Data Science"), Some("Master data science techniques and tools."))
  ]

  /** The "Upload Project" card, which hands `{}` to the click handler. */
  const UploadCard := Card(None, None, None)

  /** JavaScript truthiness of `card.id`: present and not the empty string.
      It decides both what a click does and whether a delete button is shown. */
  predicate HasId(c: Card)
  {
    c.id.Some? && c.id.value != ""
  }

  datatype FormData = FormData(projectName: string, projectDescription: string, teamSize: string)

  const EmptyForm := FormData("", "", "")

  /** The `name` attributes of the three form inputs. */
  datatype FormField = ProjectName | ProjectDescription | TeamSize

  function FieldValue(f: FormData, field: FormField): string
  {
    match field
    case ProjectName => f.projectName
    case ProjectDescription => f.projectDescription
    case TeamSize => f.teamSize
  }

  /** An application as the client holds it. `status` is whatever the JSON
      carried, so it may be undefined. */
  datatype AppRow = AppRow(id: Id, status: Option<Status>, applicant: Applicant)

  datatype NoteKind = Success | Error

  datatype Notification = Notification(kind: NoteKind, message: string)

  datatype UiState = UiState(
    courses: seq<Card>,
    formVisible: bool,
    formData: FormData,
    selectedProject: Option<Card>,
    applications: seq<AppRow>,
    notification: Option<Notification>)

  const InitialState := UiState(InitialCourses, false, EmptyForm, None, [], None)

  /** The outcome of a `fetch(...).then(r => r.json())` chain: the parsed data,
      or a rejection the handler only logs. */
  datatype Fetch<T> = Fetched(data: T) | FetchFailed(reason: string)

  /** The outcome of `response.json()`. */
  datatype Parsed<T> = Parsed(value: T) | Unparseable(reason: string)

  /** What an awaited `fetch` delivers: a response, or a rejection. */
  datatype HttpReply<T> =
    | Reply(ok: bool, contentType: Option<string>, body: Parsed<T>)
    | NetworkError(reason: string)

  /** The two fields of a status-update reply body the handler reads. */
  datatype StatusBody = StatusBody(status: Option<Status>, message: Option<string>)

  // ---------------------------------------------------------------------
  // Loading projects
  // ---------------------------------------------------------------------

  /** The card a fetched or newly created project becomes. */
  function CardOf(doc: ProjectDoc): Card
  {
    Card(Some(doc.id), doc.project.projectName, doc.project.projectDescription)
  }

  /** `data.map(project => card)`. */
  function CardsOf(docs: seq<ProjectDoc>): (cards: seq<Card>)
    ensures |cards| == |docs|
    ensures forall i :: 0 <= i < |docs| ==> cards[i] == CardOf(docs[i])
  {
    if docs == [] then [] else [CardOf(docs[0])] + CardsOf(docs[1..])
  }

  /** The mount effect: the fetched projects, as cards, follow the static
      cards; a failed fetch changes nothing. */
  function ProjectsFetched(ui: UiState, r: Fetch<seq<ProjectDoc>>): (u: UiState)
    ensures r.FetchFailed? ==> u == ui
    ensures r.Fetched? ==>
      && u == ui.(courses := u.courses)
      && |u.courses| == |InitialCourses| + |r.data|
      && u.courses[..|InitialCourses|] == InitialCourses
      && forall i :: 0 <= i < |r.data| ==>
           && u.courses[|InitialCourses| + i].id == Some(r.data[i].id)
           && u.courses[|InitialCourses| + i].title == r.data[i].project.projectName
           && u.courses[|InitialCourses| + i].description == r.data[i].project.projectDescription
  {
    match r
    case FetchFailed(_) => ui
    case Fetched(data) => ui.(courses := InitialCourses + CardsOf(data))
  }

  // ---------------------------------------------------------------------
  // Clicking a card
  // ---------------------------------------------------------------------

  /** The new state after a click, and the project whose applications the
      click asks the server for, if any. */
  datatype Click = Click(state: UiState, fetchApplicationsOf: Option<Id>)

  /** A card with an id is selected (and its applications requested); any
      other card, the static categories included, opens the upload form. */
  function CardClicked(ui: UiState, card: Card): (c: Click)
    ensures c.state.courses == ui.courses && c.state.formData == ui.formData
    ensures c.state.applications == ui.applications && c.state.notification == ui.notification
    ensures HasId(card) ==>
      && c.state.selectedProject == Some(card)
      && c.state.formVisible == ui.formVisible
      && c.fetchApplicationsOf == card.id
    ensures !HasId(card) ==>
      && c.state.formVisible
      && c.state.selectedProject.None?
      && c.fetchApplicationsOf.None?
  {
    if HasId(card) then Click(ui.(selectedProject := Some(card)), card.id)
    else Click(ui.(formVisible := true, selectedProject := None), None)
  }

  /** The applications fetch: the fetched list replaces the current one. */
  function ApplicationsFetched(ui: UiState, r: Fetch<seq<AppRow>>): (u: UiState)
    ensures r.FetchFailed? ==> u == ui
    ensures r.Fetched? ==> u.applications == r.data && u == ui.(applications := u.applications)
  {
    match r
    case FetchFailed(_) => ui
    case Fetched(data) => ui.(applications := data)
  }

  // ---------------------------------------------------------------------
  // The upload form
  // ---------------------------------------------------------------------

  /** Typing into one input changes that field of the form data only. */
  function InputChanged(ui: UiState, field: FormField, value: string): (u: UiState)
    ensures FieldValue(u.formData, field) == value
    ensures forall f :: f != field ==> FieldValue(u.formData, f) == FieldValue(ui.formData, f)
    ensures u == ui.(formData := u.formData)
  {
    var fd := ui.formData;
    var fd' := match field
      case ProjectName => fd.(projectName := value)
      case ProjectDescription => fd.(projectDescription := value)
      case TeamSize => fd.(teamSize := value);
    ui.(formData := fd')
  }

  /** The JSON object the form posts. */
  function SubmittedBody(f: FormData): map<string, string>
  {
    map["projectName" := f.projectName, "projectDescription" := f.projectDescription, "teamSize" := f.teamSize]
  }

  /** A submit takes effect only when the response is ok and its body parses. */
  predicate SubmitSucceeded(reply: HttpReply<ProjectDoc>)
  {
    reply.Reply? && reply.ok && reply.body.Parsed?
  }

  /** On success the created project is appended as a card, the form hides
      and its fields are cleared; on any failure nothing changes. */
  function SubmitReplied(ui: UiState, reply: HttpReply<ProjectDoc>): (u: UiState)
    ensures !SubmitSucceeded(reply) ==> u == ui
    ensures SubmitSucceeded(reply) ==>
      && |u.courses| == |ui.courses| + 1
      && u.courses[..|ui.courses|] == ui.courses
      && u.courses[|ui.courses|].id == Some(reply.body.value.id)
      && u.courses[|ui.courses|].title == reply.body.value.project.projectName
      && u.courses[|ui.courses|].description == reply.body.value.project.projectDescription
      && !u.formVisible
      && u.formData == EmptyForm
      && u.selectedProject == ui.selectedProject
      && u.applications == ui.applications
      && u.notification == ui.notification
  {
    if SubmitSucceeded(reply) then
      ui.(courses := ui.courses + [CardOf(reply.body.value)], formVisible := false, formData := EmptyForm)
    else ui
  }

  // ---------------------------------------------------------------------
  // Deleting a project
  // ---------------------------------------------------------------------

  /** `courses.filter(course => course.id !== id)`. */
  function RemoveCards(cards: seq<Card>, id: Id): (r: seq<Card>)
    ensures |r| <= |cards|
    ensures forall c :: c in r <==> c in cards && c.id != Some(id)
  {
    if cards == [] then []
    else if cards[0].id != Some(id) then [cards[0]] + RemoveCards(cards[1..], id)
    else RemoveCards(cards[1..], id)
  }

  /** A delete takes effect when the response is ok; the body is not read. */
  function DeleteReplied<T>(ui: UiState, id: Id, reply: HttpReply<T>): (u: UiState)
    ensures !(reply.Reply? && reply.ok) ==> u == ui
    ensures reply.Reply? && reply.ok ==>
      && u == ui.(courses := u.courses)
      && (forall c :: c in u.courses <==> c in ui.courses && c.id != Some(id))
  {
    if reply.Reply? && reply.ok then ui.(courses := RemoveCards(ui.courses, id)) else ui
  }

  // ---------------------------------------------------------------------
  // Reviewing an application
  // ---------------------------------------------------------------------

  /** `applications.map(app => app._id === id ? { ...app, status } : app)`. */
  function ReviewRows(rows: seq<AppRow>, id: Id, status: Option<Status>): (r: seq<AppRow>)
    ensures |r| == |rows|
    ensures forall i :: 0 <= i < |rows| ==>
      r[i] == (if rows[i].id == id then rows[i].(status := status) else rows[i])
  {
    if rows == [] then []
    else
      var head := if rows[0].id == id then rows[0].(status := status) else rows[0];
      [head] + ReviewRows(rows[1..], id, status)
  }

  /** `s.includes(sub)`: `sub` occurs at some position of `s`. */
  predicate Includes(s: string, sub: string)
    decreases |s|
  {
    (|sub| <= |s| && s[..|sub|] == sub) || (|s| > 0 && Includes(s[1..], sub))
  }

  /** The content-type guard: a header is present and names JSON. */
  predicate JsonContent(contentType: Option<string>)
  {
    contentType.Some? && Includes(contentType.value, "application/json")
  }

  /** The status update is confirmed by a JSON, parseable, ok response. */
  predicate StatusConfirmed(reply: HttpReply<StatusBody>)
  {
    reply.Reply? && JsonContent(reply.contentType) && reply.body.Parsed? && reply.ok
  }

  /** The message of the error the handler catches, in the order the
      handler can throw: the fetch, the content-type guard, the JSON parse,
      then the server's `message` (or a default when it is missing or empty). */
  function StatusFailure(reply: HttpReply<StatusBody>): (message: string)
    ensures reply.NetworkError? ==> message == reply.reason
    ensures reply.Reply? && !JsonContent(reply.contentType) ==>
      message == "Expected JSON response, but got something else."
    ensures reply.Reply? && JsonContent(reply.contentType) && reply.body.Unparseable? ==>
      message == reply.body.reason
    ensures reply.Reply? && JsonContent(reply.contentType) && reply.body.Parsed? && !reply.ok ==>
      var sent := reply.body.value.message;
      && (sent.Some? && sent.value != "" ==> message == sent.value)
      && (sent.None? || sent.value == "" ==> message == "Failed to update application status")
  {
    match reply
    case NetworkError(reason) => reason
    case Reply(ok, contentType, body) =>
      if !JsonContent(contentType) then "Expected JSON response, but got something else."
      else match body
        case Unparseable(reason) => reason
        case Parsed(b) =>
          if b.message.Some? && b.message.value != "" then b.message.value
          else "Failed to update application status"
  }

  const SuccessSuffix := " successfully. Notification sent to student."
  const FailurePrefix := "Failed to update application status: "

  /** A confirmed update writes the returned status into every row with that
      id and announces success; anything else leaves the rows alone and
      announces the error. Only the rows and the notification change. */
  function StatusReplied(ui: UiState, appId: Id, requested: Status, reply: HttpReply<StatusBody>): (u: UiState)
    ensures u == ui.(applications := u.applications, notification := u.notification)
    ensures StatusConfirmed(reply) ==>
      && |u.applications| == |ui.applications|
      && (forall i :: 0 <= i < |ui.applications| && ui.applications[i].id != appId ==>
            u.applications[i] == ui.applications[i])
      && (forall i :: 0 <= i < |ui.applications| && ui.applications[i].id == appId ==>
            u.applications[i].status == reply.body.value.status
            && u.applications[i].id == appId
            && u.applications[i].applicant == ui.applications[i].applicant)
      && u.notification == Some(Notification(Success, "Application " + StatusName(requested) + SuccessSuffix))
    ensures !StatusConfirmed(reply) ==>
      && u.applications == ui.applications
      && u.notification == Some(Notification(Error, FailurePrefix + StatusFailure(reply)))
  {
    if StatusConfirmed(reply) then
      ui.(applications := ReviewRows(ui.applications, appId, reply.body.value.status),
          notification := Some(Notification(Success, "Application " + StatusName(requested) + SuccessSuffix)))
    else
      ui.(notification := Some(Notification(Error, FailurePrefix + StatusFailure(reply))))
  }

  // ---------------------------------------------------------------------
  // What is on screen
  // ---------------------------------------------------------------------

  /** The panel under the cards: the upload form, the selected project's
      details, or nothing. */
  datatype Panel = Closed | FormOpen | Details(project: Card)

  /** The details panel renders when a project is selected and the form is
      hidden. */
  predicate ShowsDetails(ui: UiState)
  {
    ui.selectedProject.Some? && !ui.formVisible
  }

  function PanelOf(ui: UiState): (p: Panel)
    ensures p == FormOpen <==> ui.formVisible
    ensures p.Details? <==> ShowsDetails(ui)
    ensures p.Details? ==> ui.selectedProject == Some(p.project)
  {
    if ui.formVisible then FormOpen
    else if ui.selectedProject.Some? then Details(ui.selectedProject.value)
    else Closed
  }
}
