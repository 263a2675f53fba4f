/**
  The two document kinds the server stores and the client renders, shared by
  both sides: a Project and an Application, together with the application
  status enumeration of the Mongoose schema and its string spelling.
 */
module Documents {

  /** A value that may be absent (an undefined JSON field). */
  datatype Option<+T> = None | Some(value: T)

  /** A MongoDB ObjectId, in the string form carried in URLs and JSON. */
  type Id = string

  /** The `status` enumeration of the application schema. */
  datatype Status = Pending | Accepted | Rejected

  /** The spelling of a status in the schema's enum and on the wire. */
  function StatusName(st: Status): (name: string)
    ensures ParseStatus(name) == Some(st)
    ensures name in {"pending", "accepted", "rejected"}
  {
    match st
    case Pending => "pending"
    case Accepted => "accepted"
    case Rejected => "rejected"
  }

  /** Enum validation: a string is a status exactly when it is one of the
      three enum spellings. */
  function ParseStatus(s: string): (r: Option<Status>)
    ensures r.Some? <==> s in {"pending", "accepted", "rejected"}
  {
    if s == "pending" then Some(Pending)
    else if s == "accepted" then Some(Accepted)
    else if s == "rejected" then Some(Rejected)
    else None
  }

  /** Parsing inverts spelling in the other direction too: a string the enum
      accepts is the spelling of the status it parses to. */
  lemma ParsedStatusIsSpelled(s: string)
    requires ParseStatus(s).Some?
    ensures StatusName(ParseStatus(s).value) == s
  {
  }

  /** A stored project. Fields the request body left undefined stay absent;
      `teamSize` keeps the raw value the client sent. */
  datatype Project = Project(
    projectName: Option<string>,
    projectDescription: Option<string>,
    teamSize: Option<string>)

  /** A project as it travels in JSON: the record plus its `_id`. */
  datatype ProjectDoc = ProjectDoc(id: Id, project: Project)

  /** The fields a student submits with an application. `year` and `cgpa`
      are the schema keys `Year` and `Cgpa`. */
  datatype Applicant = Applicant(
    projectId: Option<Id>,
    name: Option<string>,
    email: Option<string>,
    experience: Option<string>,
    year: Option<string>,
    cgpa: seq<real>,
    message: Option<string>)

  /** A stored application: what the student sent, the review status and
      whether the applicant has been notified. */
  datatype Application = Application(
    applicant: Applicant,
    status: Status,
    notificationSent: bool)

  /** The value of `key` in a JSON object whose values are strings. */
  function Field(body: map<string, string>, key: string): (r: Option<string>)
    ensures r.Some? <==> key in body
    ensures r.Some? ==> r.value == body[key]
  {
    if key in body then Some(body[key]) else None
  }
}
