/**
  Laws of the Card component's reducers: the filter behind delete keeps the
  surviving cards in order, the status map touches only the reviewed rows,
  a submit followed by a delete of the new project restores the card list,
  and the panel moves between closed, form and details as the click and
  submit handlers dictate.
 */
module CardProperties {
  import opened Documents
  import opened CardComponent

  // ---------------------------------------------------------------------
  // Delete: the filter on card ids
  // ---------------------------------------------------------------------

  /** Filtering distributes over concatenation, so the kept cards stay in
      their original order. */
  lemma {:induction false} RemoveCardsAppend(a: seq<Card>, b: seq<Card>, id: Id)
    ensures RemoveCards(a + b, id) == RemoveCards(a, id) + RemoveCards(b, id)
  {
    if a == [] {
      assert a + b == b;
    } else {
      assert (a + b)[0] == a[0];
      assert (a + b)[1..] == a[1..] + b;
      RemoveCardsAppend(a[1..], b, id);
    }
  }

  /** A card list without the id is left exactly as it was. */
  lemma {:induction false} RemoveCardsAbsent(cards: seq<Card>, id: Id)
    requires forall i :: 0 <= i < |cards| ==> cards[i].id != Some(id)
    ensures RemoveCards(cards, id) == cards
  {
    if cards != [] {
      RemoveCardsAbsent(cards[1..], id);
      assert [cards[0]] + cards[1..] == cards;
    }
  }

  /** Deleting the same id twice is the same as deleting it once. */
  lemma RemoveCardsIdempotent(cards: seq<Card>, id: Id)
    ensures RemoveCards(RemoveCards(cards, id), id) == RemoveCards(cards, id)
  {
  }

  /** The static category cards have no id: no delete button is shown for
      them and every delete keeps them, in front, as they were. */
  lemma DeleteKeepsStaticCards(rest: seq<Card>, id: Id)
    ensures forall i :: 0 <= i < |InitialCourses| ==> !HasId(InitialCourses[i])
    ensures RemoveCards(InitialCourses + rest, id) == InitialCourses + RemoveCards(rest, id)
  {
    RemoveCardsAppend(InitialCourses, rest, id);
    RemoveCardsAbsent(InitialCourses, id);
  }

  /** A successful submit followed by a successful delete of the created
      project gives back the card list from before the submit, provided no
      card already carried the new id. */
  lemma SubmitThenDelete<T>(ui: UiState, doc: ProjectDoc, deleted: HttpReply<T>)
    requires forall i :: 0 <= i < |ui.courses| ==> ui.courses[i].id != Some(doc.id)
    requires deleted.Reply? && deleted.ok
    ensures var submitted := SubmitReplied(ui, Reply(true, None, Parsed(doc)));
      DeleteReplied(submitted, doc.id, deleted).courses == ui.courses
  {
    var submitted := SubmitReplied(ui, Reply(true, None, Parsed(doc)));
    assert submitted.courses == ui.courses + [CardOf(doc)];
    RemoveCardsAppend(ui.courses, [CardOf(doc)], doc.id);
    RemoveCardsAbsent(ui.courses, doc.id);
  }

  /** A failed delete changes nothing, whatever the failure. */
  lemma FailedDeleteKeepsCourses<T>(ui: UiState, id: Id, reply: HttpReply<T>)
    requires reply.NetworkError? || !reply.ok
    ensures DeleteReplied(ui, id, reply).courses == ui.courses
  {
  }

  // ---------------------------------------------------------------------
  // Review: the map over application rows
  // ---------------------------------------------------------------------

  /** Two reviews of the same application: the second one's status stays,
      which also makes a repeated review (a double click) harmless. */
  lemma ReviewRowsLastWins(rows: seq<AppRow>, id: Id, first: Option<Status>, second: Option<Status>)
    ensures ReviewRows(ReviewRows(rows, id, first), id, second) == ReviewRows(rows, id, second)
  {
  }

  /** Rows are never added, dropped or reordered by a review: the ids are
      those of the list before. */
  lemma ReviewKeepsIds(rows: seq<AppRow>, id: Id, status: Option<Status>)
    ensures var r := ReviewRows(rows, id, status);
      forall i :: 0 <= i < |rows| ==> r[i].id == rows[i].id && r[i].applicant == rows[i].applicant
  {
  }

  /** A reply that does not confirm the update leaves every row as it was
      and raises an error notification. */
  lemma UnconfirmedReviewKeepsRows(ui: UiState, appId: Id, requested: Status, reply: HttpReply<StatusBody>)
    requires reply.Reply? && (!JsonContent(reply.contentType) || !reply.ok)
    ensures var u := StatusReplied(ui, appId, requested, reply);
      u.applications == ui.applications && u.notification.Some? && u.notification.value.kind == Error
  {
  }

  // ---------------------------------------------------------------------
  // Loading and submitting projects
  // ---------------------------------------------------------------------

  /** Mapping projects to cards commutes with concatenation. */
  lemma CardsOfAppend(a: seq<ProjectDoc>, b: seq<ProjectDoc>)
    ensures CardsOf(a + b) == CardsOf(a) + CardsOf(b)
  {
  }

  /** Loading the projects and then submitting one more gives the list that
      loading all of them at once would. */
  lemma FetchThenSubmit(ui: UiState, data: seq<ProjectDoc>, doc: ProjectDoc)
    ensures var loaded := ProjectsFetched(ui, Fetched(data));
      SubmitReplied(loaded, Reply(true, None, Parsed(doc))).courses
        == ProjectsFetched(ui, Fetched(data + [doc])).courses
  {
  }

  /** A project card whose id is a non-empty string offers delete; the
      fetched list's delete buttons are exactly those of the projects. */
  lemma FetchedProjectsOfferDelete(ui: UiState, data: seq<ProjectDoc>)
    requires forall i :: 0 <= i < |data| ==> data[i].id != ""
    ensures var u := ProjectsFetched(ui, Fetched(data));
      forall i :: 0 <= i < |u.courses| ==> (HasId(u.courses[i]) <==> i >= |InitialCourses|)
  {
  }

  /** What is typed into a field is what the form posts under that key. */
  lemma TypedValueIsPosted(ui: UiState, field: FormField, value: string)
    ensures var body := SubmittedBody(InputChanged(ui, field, value).formData);
      && (field == ProjectName ==> body["projectName"] == value)
      && (field == ProjectDescription ==> body["projectDescription"] == value)
      && (field == TeamSize ==> body["teamSize"] == value)
  {
  }

  // ---------------------------------------------------------------------
  // The panel
  // ---------------------------------------------------------------------

  /** A click on a card with an id shows its details unless the form is
      open; a click on any other card opens the form. */
  lemma ClickMovesPanel(ui: UiState, card: Card)
    ensures PanelOf(CardClicked(ui, card).state)
         == if !HasId(card) || ui.formVisible then FormOpen else Details(card)
  {
  }

  /** Every static category card, like the Upload card, opens the form. */
  lemma StaticCardsOpenForm(ui: UiState, i: nat)
    requires i < |InitialCourses|
    ensures PanelOf(CardClicked(ui, InitialCourses[i]).state) == FormOpen
    ensures PanelOf(CardClicked(ui, UploadCard).state) == FormOpen
  {
  }

  /** While the form is open, no click shows a project's details. */
  lemma {:induction false} OpenFormHidesDetails(ui: UiState, clicks: seq<Card>)
    requires ui.formVisible
    ensures PanelOf(Clicks(ui, clicks)) == FormOpen
    decreases |clicks|
  {
    if clicks != [] {
      OpenFormHidesDetails(CardClicked(ui, clicks[0]).state, clicks[1..]);
    }
  }

  /** The state after a sequence of clicks. */
  function Clicks(ui: UiState, clicks: seq<Card>): UiState
    decreases |clicks|
  {
    if clicks == [] then ui else Clicks(CardClicked(ui, clicks[0]).state, clicks[1..])
  }

  /** A successful submit closes the form, and the panel then shows the
      project selected meanwhile, if any. */
  lemma SubmitMovesPanel(ui: UiState, doc: ProjectDoc)
    ensures PanelOf(SubmitReplied(ui, Reply(true, None, Parsed(doc))))
         == if ui.selectedProject.Some? then Details(ui.selectedProject.value) else Closed
  {
  }

  /** Open the form, click a project, submit: the details of that project
      appear, not a closed panel. */
  lemma SubmitRevealsProjectClickedWhileFormOpen(ui: UiState, project: Card, doc: ProjectDoc)
    requires HasId(project)
    ensures var withForm := CardClicked(ui, UploadCard).state;
      var clicked := CardClicked(withForm, project).state;
      PanelOf(SubmitReplied(clicked, Reply(true, None, Parsed(doc)))) == Details(project)
  {
  }

  /** At mount nothing is open and only the static cards show; the project
      fetch puts the project cards after them and touches nothing else,
      and a failed fetch leaves the mount state. */
  lemma MountThenFetch(data: seq<ProjectDoc>, reason: string)
    ensures PanelOf(InitialState) == Closed
    ensures ProjectsFetched(InitialState, Fetched(data))
         == InitialState.(courses := InitialCourses + CardsOf(data))
    ensures ProjectsFetched(InitialState, FetchFailed(reason)).courses == InitialCourses
  {
    var u := ProjectsFetched(InitialState, Fetched(data));
    assert u.courses[..|InitialCourses|] == InitialCourses;
    assert u.courses[|InitialCourses|..] == CardsOf(data);
    assert u.courses == u.courses[..|InitialCourses|] + u.courses[|InitialCourses|..];
  }
}
