/**
  How the server's responses reach the Card component. Express answers
  `res.json` with a JSON content type and `res.send(text)` with an HTML one;
  a 2xx status makes `response.ok` true. The lemmas follow one request from
  the component through a handler and back into the component's state.
 */
module Wire {
  import opened Documents
  import opened Server
  import opened CardComponent

  const JsonType := "application/json; charset=utf-8"
  const TextType := "text/html; charset=utf-8"

  /** A server response as the component's `fetch` sees it, with the two body
      fields the status handler reads. */
  function ReplyOf(resp: Server.Response): (reply: HttpReply<StatusBody>)
    ensures reply.Reply?
    ensures reply.ok <==> resp.Ok? || resp.Created?
    ensures reply.ok ==> reply.contentType == Some(JsonType) && reply.body.Parsed?
    ensures !reply.ok ==> reply.contentType == Some(TextType)
  {
    match resp
    case Ok(ApplicationDoc(_, app)) => Reply(true, Some(JsonType), Parsed(StatusBody(Some(app.status), None)))
    case Ok(Message(m)) => Reply(true, Some(JsonType), Parsed(StatusBody(None, Some(m))))
    case Ok(_) => Reply(true, Some(JsonType), Parsed(StatusBody(None, None)))
    case Created(_, app) => Reply(true, Some(JsonType), Parsed(StatusBody(Some(app.status), None)))
    case BadRequest(text) => Reply(false, Some(TextType), Unparseable(text))
    case NotFound(text) => Reply(false, Some(TextType), Unparseable(text))
    case ServerError(text) => Reply(false, Some(TextType), Unparseable(text))
  }

  /** The JSON content type passes the component's guard. */
  lemma JsonTypeIsJson()
    ensures JsonContent(Some(JsonType))
  {
    assert JsonType[..|"application/json"|] == "application/json";
  }

  /** A string lacking one of the characters of `sub` does not include `sub`. */
  lemma {:induction false} MissingCharExcludes(s: string, sub: string, k: nat)
    requires k < |sub| && sub[k] !in s
    ensures !Includes(s, sub)
    decreases |s|
  {
    if |sub| <= |s| {
      assert s[..|sub|][k] == s[k];
    }
    if |s| > 0 {
      assert forall c :: c in s[1..] ==> c in s;
      MissingCharExcludes(s[1..], sub, k);
    }
  }

  /** The HTML content type fails the guard: it has no 'j'. */
  lemma TextTypeIsNotJson()
    ensures !JsonContent(Some(TextType))
  {
    var json := "application/json";
    assert json[12] == 'j';
    assert forall i :: 0 <= i < |TextType| ==> TextType[i] != 'j';
    MissingCharExcludes(TextType, json, 12);
  }

  /** Accepting or rejecting an application end to end: the server stores
      the target status and the component shows it in every row of that
      application, with a success banner. */
  lemma ReviewEndToEnd(s: Server.Store, ui: UiState, id: Id, target: Status, valid: Id -> bool)
    requires valid(id) && id in s.applications && target != Pending
    ensures var r := Server.UpdateStatus(s, id, Some(StatusName(target)), valid);
      var u := StatusReplied(ui, id, target, ReplyOf(r.response));
      && r.store.applications[id].status == target
      && |u.applications| == |ui.applications|
      && (forall i :: 0 <= i < |u.applications| && ui.applications[i].id == id ==>
            u.applications[i].status == Some(target))
      && (forall i :: 0 <= i < |u.applications| && ui.applications[i].id != id ==>
            u.applications[i] == ui.applications[i])
      && u.notification == Some(Notification(Success, "Application " + StatusName(target) + SuccessSuffix))
  {
    JsonTypeIsJson();
  }

  /** Every refusal of the status update (400, 404 or 500) reaches the user
      as the content-type complaint: the server's own text is never shown,
      and the rows stay as they were. */
  lemma RefusedReviewShowsContentTypeError(s: Server.Store, ui: UiState, id: Id, status: Option<string>,
                                           requested: Status, valid: Id -> bool)
    requires !Server.UpdateStatus(s, id, status, valid).response.Ok?
    ensures var r := Server.UpdateStatus(s, id, status, valid);
      var u := StatusReplied(ui, id, requested, ReplyOf(r.response));
      && u.applications == ui.applications
      && u.notification == Some(Notification(Error,
           FailurePrefix + "Expected JSON response, but got something else."))
  {
    TextTypeIsNotJson();
  }

  /** Submitting the form end to end: the server stores the three typed
      values under the new id, and the component appends a card carrying
      that id, the typed name and the typed description. */
  lemma SubmitEndToEnd(s: Server.Store, ui: UiState, newId: Id)
    requires newId !in s.projects
    ensures var r := Server.CreateProject(s, SubmittedBody(ui.formData), newId);
      var u := SubmitReplied(ui, Reply(true, Some(JsonType), Parsed(r.response.payload.doc)));
      && r.store.projects[newId] == Project(Some(ui.formData.projectName),
                                            Some(ui.formData.projectDescription),
                                            Some(ui.formData.teamSize))
      && u.courses == ui.courses + [Card(Some(newId), Some(ui.formData.projectName),
                                         Some(ui.formData.projectDescription))]
      && u.formData == EmptyForm && !u.formVisible
  {
  }

  /** Deleting end to end: an existing project disappears from the store and
      its card from the page; an unknown or malformed id changes neither. */
  lemma DeleteEndToEnd(s: Server.Store, ui: UiState, id: Id, valid: Id -> bool)
    ensures var r := Server.DeleteProject(s, id, valid);
      var u := DeleteReplied(ui, id, ReplyOf(r.response));
      && (valid(id) && id in s.projects ==>
            id !in r.store.projects && (forall c :: c in u.courses <==> c in ui.courses && c.id != Some(id)))
      && (!(valid(id) && id in s.projects) ==> r.store == s && u == ui)
  {
  }
}
