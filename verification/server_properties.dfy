/**
  Properties that relate several requests to the server: the order of the
  checks in the status and delete handlers, re-review, idempotence, the
  create-then-list round trip and the well-formedness invariant of the store.
 */
module ServerProperties {
  import opened Documents
  import opened Server

  /** An invalid status is refused before any lookup: the answer does not
      depend on the id or on what the store holds. */
  lemma InvalidStatusRefusedBeforeLookup(s: Store, t: Store, id: Id, other: Id, status: Option<string>, valid: Id -> bool)
    requires ReviewTarget(status).None?
    ensures UpdateStatus(s, id, status, valid).response == UpdateStatus(t, other, status, valid).response
    ensures UpdateStatus(s, id, status, valid).store == s
  {
  }

  /** Review is not a latch: whatever the stored status, including one that
      was already reviewed, either target overwrites it. */
  lemma ReviewOverwritesAnyStatus(s: Store, id: Id, target: Status, valid: Id -> bool)
    requires valid(id) && id in s.applications
    requires target != Pending
    ensures UpdateStatus(s, id, Some(StatusName(target)), valid).store.applications[id].status == target
  {
  }

  /** The last review wins: reviewing twice leaves the store as the second
      review alone would; in particular the same review twice is the same
      as once. */
  lemma LastReviewWins(s: Store, id: Id, first: Option<string>, second: Option<string>, valid: Id -> bool)
    requires ReviewTarget(first).Some? && ReviewTarget(second).Some?
    ensures UpdateStatus(UpdateStatus(s, id, first, valid).store, id, second, valid).store
         == UpdateStatus(s, id, second, valid).store
  {
  }

  /** Sending the same status update twice, as a double click does, leaves
      the store as sending it once. */
  lemma ReviewIdempotent(s: Store, id: Id, status: Option<string>, valid: Id -> bool)
    ensures UpdateStatus(UpdateStatus(s, id, status, valid).store, id, status, valid).store
         == UpdateStatus(s, id, status, valid).store
  {
  }

  /** Deleting an existing project succeeds once; the second delete of the
      same id answers 404 and changes nothing. */
  lemma DeleteTwiceNotFound(s: Store, id: Id, valid: Id -> bool)
    requires valid(id) && id in s.projects
    ensures DeleteProject(s, id, valid).response.Ok?
    ensures var s1 := DeleteProject(s, id, valid).store;
      DeleteProject(s1, id, valid) == Transition(NotFound("Project not found"), s1)
  {
  }

  /** After a create, the listing holds the new project exactly once under its
      id, with the fields from the body, next to every project it held before. */
  lemma CreateThenList(s: Store, body: map<string, string>, newId: Id)
    requires newId !in s.projects
    ensures var listed := ListProjects(CreateProject(s, body, newId).store).response.payload.projects;
      && |listed| == |s.projects| + 1
      && newId in listed
      && listed[newId] == Project(Field(body, "projectName"), Field(body, "projectDescription"), Field(body, "teamSize"))
      && (forall p :: p in s.projects ==> p in listed && listed[p] == s.projects[p])
  {
  }

  /** Only `projectName`, `projectDescription` and `teamSize` of the body are
      stored: two bodies that agree on those keys create the same project. */
  lemma CreateIgnoresOtherKeys(s: Store, b1: map<string, string>, b2: map<string, string>, newId: Id)
    requires newId !in s.projects
    requires forall k :: k in {"projectName", "projectDescription", "teamSize"} ==>
      Field(b1, k) == Field(b2, k)
    ensures CreateProject(s, b1, newId) == CreateProject(s, b2, newId)
  {
  }

  /** An application created without `status` or `notificationSent` starts
      pending and not notified. */
  lemma NewApplicationDefaults(s: Store, body: ApplicationBody, newId: Id, valid: Id -> bool)
    requires newId !in s.applications
    requires body.projectId.Some? ==> valid(body.projectId.value)
    requires body.status.None? && body.notificationSent.None?
    ensures var r := CreateApplication(s, body, newId, valid);
      && r.response.Created?
      && r.store.applications[newId].status == Pending
      && !r.store.applications[newId].notificationSent
  {
  }

  /** Every handler keeps the store well formed, given a well-formed
      generated id. */
  lemma HandlersPreserveWellFormed(s: Store, valid: Id -> bool, id: Id, newId: Id,
                                   status: Option<string>, pbody: map<string, string>, abody: ApplicationBody)
    requires WellFormed(s, valid)
    requires valid(newId) && newId !in s.projects && newId !in s.applications
    ensures WellFormed(ListApplications(s, id, valid).store, valid)
    ensures WellFormed(CreateApplication(s, abody, newId, valid).store, valid)
    ensures WellFormed(UpdateStatus(s, id, status, valid).store, valid)
    ensures WellFormed(ListProjects(s).store, valid)
    ensures WellFormed(CreateProject(s, pbody, newId).store, valid)
    ensures WellFormed(DeleteProject(s, id, valid).store, valid)
  {
  }

  /** The scenario of a project's whole life: create a project, apply to it,
      list its applications (one, pending), accept the application, list
      again (one, accepted). */
  lemma ProjectLifecycle(s: Store, pbody: map<string, string>, abody: ApplicationBody,
                         projectId: Id, appId: Id, valid: Id -> bool)
    requires projectId !in s.projects && appId !in s.applications
    requires valid(projectId) && valid(appId)
    requires forall a :: a in s.applications ==> s.applications[a].applicant.projectId != Some(projectId)
    requires abody.projectId == Some(projectId) && abody.status.None? && abody.notificationSent.None?
    ensures var s1 := CreateProject(s, pbody, projectId).store;
      var s2 := CreateApplication(s1, abody, appId, valid).store;
      var before := ListApplications(s2, projectId, valid).response.payload.applications;
      var s3 := UpdateStatus(s2, appId, Some("accepted"), valid).store;
      var after := ListApplications(s3, projectId, valid).response.payload.applications;
      && before.Keys == {appId} && before[appId].status == Pending
      && after.Keys == {appId} && after[appId].status == Accepted
  {
  }

  /** A fresh database lists no projects, and no applications for any
      well-formed project id: an empty listing, not an error. */
  lemma FreshDatabaseListsNothing(projectId: Id, valid: Id -> bool)
    requires valid(projectId)
    ensures ListProjects(EmptyStore).response == Ok(Projects(map[]))
    ensures ListApplications(EmptyStore, projectId, valid).response == Ok(Applications(map[]))
  {
  }
}
