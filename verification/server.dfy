/**
  The REST handlers of the server, with the MongoDB collections abstracted
  to two maps from ObjectId to record. Every handler is a pure transition:
  it takes the store and the request and returns the HTTP response together
  with the store after the request.

  Two things the database library decides are parameters: `valid` is
  `ObjectId.isValid` (which also decides whether Mongoose can cast a string
  to an ObjectId), and `newId` is the id the driver generates for a new
  document.
 */
module Server {
  import opened Documents

  datatype Store = Store(projects: map<Id, Project>, applications: map<Id, Application>)

  /** The collections of a fresh database. */
  const EmptyStore := Store(map[], map[])

  /** JSON bodies of successful responses. */
  datatype Payload =
    | Projects(projects: map<Id, Project>)
    | ProjectCreated(doc: ProjectDoc)
    | Applications(applications: map<Id, Application>)
    | ApplicationDoc(id: Id, application: Application)
    | Message(message: string)

  /** HTTP responses: 200 and 201 carry JSON, the others HTML text
      (`text/html`, from `res.send`). */
  datatype Response =
    | Ok(payload: Payload)                        // 200, res.json
    | Created(id: Id, application: Application)   // 201, res.status(201).json
    | BadRequest(text: string)                    // 400
    | NotFound(text: string)                      // 404
    | ServerError(text: string)                   // 500, from a rejected save or cast

  datatype Transition = Transition(response: Response, store: Store)

  /** Body of POST /api/applications. Keys outside the schema are dropped by
      Mongoose and do not appear here. */
  datatype ApplicationBody = ApplicationBody(
    projectId: Option<string>,
    name: Option<string>,
    email: Option<string>,
    experience: Option<string>,
    year: Option<string>,
    cgpa: Option<seq<real>>,
    message: Option<string>,
    status: Option<string>,
    notificationSent: Option<bool>)

  /** Every id the store holds, and every project reference, is a well-formed
      ObjectId: Mongoose only stores values it could cast. */
  ghost predicate WellFormed(s: Store, valid: Id -> bool)
  {
    && (forall id :: id in s.projects ==> valid(id))
    && (forall id :: id in s.applications ==> valid(id))
    && (forall id :: id in s.applications && s.applications[id].applicant.projectId.Some?
          ==> valid(s.applications[id].applicant.projectId.value))
  }

  // ---------------------------------------------------------------------
  // GET /api/projects/:id/applications
  // ---------------------------------------------------------------------

  /** The applications whose `projectId` is `projectId`; a project without
      applications (or without a record at all) yields an empty listing.
      A string that cannot be cast to an ObjectId makes the query throw. */
  function ListApplications(s: Store, projectId: Id, valid: Id -> bool): (r: Transition)
    ensures r.store == s
    ensures !valid(projectId) ==> r.response == ServerError("Error fetching applications")
    ensures valid(projectId) ==>
      && r.response.Ok? && r.response.payload.Applications?
      && var listed := r.response.payload.applications;
         && (forall a :: a in listed <==>
               a in s.applications && s.applications[a].applicant.projectId == Some(projectId))
         && (forall a :: a in listed ==> listed[a] == s.applications[a])
  {
    if !valid(projectId) then
      Transition(ServerError("Error fetching applications"), s)
    else
      var listed := map a | a in s.applications && s.applications[a].applicant.projectId == Some(projectId)
                      :: s.applications[a];
      Transition(Ok(Applications(listed)), s)
  }

  // ---------------------------------------------------------------------
  // POST /api/applications
  // ---------------------------------------------------------------------

  /** The document `new Application(body)` builds: schema defaults fill the
      fields the body leaves out. Fails when a field cannot be cast or the
      status is outside the enum. */
  function BuildApplication(body: ApplicationBody, valid: Id -> bool): (r: Option<Application>)
    ensures r.Some? <==>
      && (body.projectId.Some? ==> valid(body.projectId.value))
      && (body.status.Some? ==> ParseStatus(body.status.value).Some?)
    ensures r.Some? ==>
      && r.value.applicant.projectId == body.projectId
      && r.value.applicant.name == body.name
      && r.value.applicant.email == body.email
      && r.value.applicant.experience == body.experience
      && r.value.applicant.year == body.year
      && r.value.applicant.message == body.message
      && (body.cgpa.None? ==> r.value.applicant.cgpa == [])
      && (body.cgpa.Some? ==> r.value.applicant.cgpa == body.cgpa.value)
      && (body.status.None? ==> r.value.status == Pending)
      && (body.status.Some? ==> StatusName(r.value.status) == body.status.value)
      && r.value.notificationSent == (body.notificationSent == Some(true))
  {
    if body.projectId.Some? && !valid(body.projectId.value) then None
    else
      var status := if body.status.None? then Some(Pending) else ParseStatus(body.status.value);
      if status.None? then None
      else
        var cgpa := if body.cgpa.Some? then body.cgpa.value else [];
        var notified := if body.notificationSent.Some? then body.notificationSent.value else false;
        Some(Application(
          Applicant(body.projectId, body.name, body.email, body.experience, body.year, cgpa, body.message),
          status.value, notified))
  }

  /** Saves a new application under the generated id and answers 201 with it;
      a document the schema refuses is not saved and the answer is 500. No
      check is made that the referenced project exists. */
  function CreateApplication(s: Store, body: ApplicationBody, newId: Id, valid: Id -> bool): (r: Transition)
    requires newId !in s.applications
    ensures r.store.projects == s.projects
    ensures BuildApplication(body, valid).None? ==>
      r == Transition(ServerError("Error saving application."), s)
    ensures BuildApplication(body, valid).Some? ==>
      && r.response == Created(newId, BuildApplication(body, valid).value)
      && r.store.applications.Keys == s.applications.Keys + {newId}
      && r.store.applications[newId] == BuildApplication(body, valid).value
      && (forall a :: a in s.applications ==> r.store.applications[a] == s.applications[a])
  {
    match BuildApplication(body, valid)
    case None => Transition(ServerError("Error saving application."), s)
    case Some(app) =>
      Transition(Created(newId, app), s.(applications := s.applications[newId := app]))
  }

  // ---------------------------------------------------------------------
  // PUT /api/applications/:id/status
  // ---------------------------------------------------------------------

  /** The review targets the handler accepts: only "accepted" and "rejected";
      a missing status, "pending" or anything else is refused. */
  function ReviewTarget(status: Option<string>): (r: Option<Status>)
    ensures r.Some? <==> status == Some("accepted") || status == Some("rejected")
    ensures r.Some? ==> r.value != Pending && status == Some(StatusName(r.value))
  {
    if status == Some("accepted") then Some(Accepted)
    else if status == Some("rejected") then Some(Rejected)
    else None
  }

  /** One `application.save()`: overwrites the stored document. */
  function Save(s: Store, id: Id, app: Application): Store
  {
    s.(applications := s.applications[id := app])
  }

  /** Validates the status, then looks the application up, then saves it
      twice: once with the new status and `notificationSent = false`, and,
      after notifying the student, once more with `notificationSent = true`.
      The status check comes first, so an invalid status is refused whatever
      the id; the stored status is overwritten whatever it was. */
  function UpdateStatus(s: Store, id: Id, status: Option<string>, valid: Id -> bool): (r: Transition)
    ensures r.store.projects == s.projects
    ensures ReviewTarget(status).None? ==> r == Transition(BadRequest("Invalid status"), s)
    ensures ReviewTarget(status).Some? && !valid(id) ==>
      r == Transition(ServerError("Error updating application status"), s)
    ensures ReviewTarget(status).Some? && valid(id) && id !in s.applications ==>
      r == Transition(NotFound("Application not found"), s)
    ensures ReviewTarget(status).Some? && valid(id) && id in s.applications ==>
      && r.store.applications.Keys == s.applications.Keys
      && StatusName(r.store.applications[id].status) == status.value
      && r.store.applications[id].notificationSent
      && r.store.applications[id].applicant == s.applications[id].applicant
      && (forall a :: a in s.applications && a != id ==> r.store.applications[a] == s.applications[a])
      && r.response == Ok(ApplicationDoc(id, r.store.applications[id]))
  {
    match ReviewTarget(status)
    case None => Transition(BadRequest("Invalid status"), s)
    case Some(target) =>
      if !valid(id) then Transition(ServerError("Error updating application status"), s)
      else if id !in s.applications then Transition(NotFound("Application not found"), s)
      else
        var reviewed := s.applications[id].(status := target, notificationSent := false);
        var s1 := Save(s, id, reviewed);
        var notified := reviewed.(notificationSent := true);
        var s2 := Save(s1, id, notified);
        Transition(Ok(ApplicationDoc(id, notified)), s2)
  }

  // ---------------------------------------------------------------------
  // GET /api/projects and POST /api/projects
  // ---------------------------------------------------------------------

  function ListProjects(s: Store): (r: Transition)
    ensures r.store == s
    ensures r.response.Ok? && r.response.payload.Projects?
    ensures r.response.payload.projects == s.projects
  {
    Transition(Ok(Projects(s.projects)), s)
  }

  /** The project `new Project({ projectName, projectDescription, teamSize })`
      builds: those three keys of the body and nothing else. */
  function ProjectOf(body: map<string, string>): (p: Project)
  {
    Project(Field(body, "projectName"), Field(body, "projectDescription"), Field(body, "teamSize"))
  }

  /** Saves a new project under the generated id and answers with it. */
  function CreateProject(s: Store, body: map<string, string>, newId: Id): (r: Transition)
    requires newId !in s.projects
    ensures r.store.applications == s.applications
    ensures r.store.projects.Keys == s.projects.Keys + {newId}
    ensures forall p :: p in s.projects ==> r.store.projects[p] == s.projects[p]
    ensures var created := r.store.projects[newId];
      && created.projectName == Field(body, "projectName")
      && created.projectDescription == Field(body, "projectDescription")
      && created.teamSize == Field(body, "teamSize")
      && r.response == Ok(ProjectCreated(ProjectDoc(newId, created)))
  {
    var p := ProjectOf(body);
    Transition(Ok(ProjectCreated(ProjectDoc(newId, p))), s.(projects := s.projects[newId := p]))
  }

  // ---------------------------------------------------------------------
  // DELETE /api/projects/:id
  // ---------------------------------------------------------------------

  /** Checks the id format before touching the store, then removes the
      project if it exists. Applications of the project are left in place. */
  function DeleteProject(s: Store, id: Id, valid: Id -> bool): (r: Transition)
    ensures r.store.applications == s.applications
    ensures !valid(id) ==> r == Transition(BadRequest("Invalid project ID format"), s)
    ensures valid(id) && id !in s.projects ==> r == Transition(NotFound("Project not found"), s)
    ensures valid(id) && id in s.projects ==>
      && r.response == Ok(Message("Project deleted successfully"))
      && r.store.projects.Keys == s.projects.Keys - {id}
      && (forall p :: p in r.store.projects ==> r.store.projects[p] == s.projects[p])
  {
    if !valid(id) then Transition(BadRequest("Invalid project ID format"), s)
    else if id !in s.projects then Transition(NotFound("Project not found"), s)
    else Transition(Ok(Message("Project deleted successfully")), s.(projects := s.projects - {id}))
  }
}
