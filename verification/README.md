# Project board: server handlers and card component, in Dafny

This project models the two pieces of logic in a small project-posting app:

- **The REST server** (`src/server.cjs`). Students post projects and apply to them, and project owners accept or reject the applications. The two MongoDB collections become two maps from ObjectId to record (`Server.Store`). Each Express handler becomes a pure function from the store and the request to a `Transition`: the HTTP response paired with the store after the request. `ObjectId.isValid` is a parameter `valid: Id -> bool`. The model also uses it for the casts Mongoose performs on ids. The id the driver generates for a new document is a parameter `newId`, required to be fresh.
- **The `Card` component** (`src/components/Card.jsx`). Its six `useState` fields become one record, `CardComponent.UiState`. Each event handler, or each branch that runs once a server reply arrives, becomes a reducer from one `UiState` to the next. The reply is an input to the reducer.

Files:

- `documents.dfy` (`Documents`): the shared records `Project` and `Application`, and the status enumeration with its spelling.
- `server.dfy` (`Server`): the store and the six handlers.
- `server_properties.dfy` (`ServerProperties`): laws that span several requests. They cover check order, re-review, idempotence, create-then-list and the store invariant.
- `card.dfy` (`CardComponent`): the UI state and its reducers.
- `card_properties.dfy` (`CardProperties`): the filter and map laws behind delete and review, and the panel transitions.
- `wire.dfy` (`Wire`): what the component's `fetch` sees of each server response (Express content types), plus end-to-end lemmas that run one request from the component through a handler and back.

Behaviour of the code that the lemmas pin down:

- Clicking a static category card opens the upload form, because those cards have no `id` (`CardProperties.StaticCardsOpenForm`).
- A successful submit only hides the form, so a project card clicked while the form was open is shown afterwards (`CardProperties.SubmitRevealsProjectClickedWhileFormOpen`).
- Any stored status can be overwritten by `accepted` or `rejected` (`ServerProperties.ReviewOverwritesAnyStatus`).

More behaviour the proofs bring out:

- The server answers 400, 404 and 500 as HTML text (`text/html`). The component checks the content type first, so it always shows "Expected JSON response, but got something else." and never the server's own message (`Wire.RefusedReviewShowsContentTypeError`).
- While the upload form is open, no click shows a project's details (`CardProperties.OpenFormHidesDetails`).
- The schema stores the keys `Year` and `Cgpa`, while the component renders `application.year` and `application.cgpa` (`src/components/Card.jsx:230-231`). Rendering is not modelled, so this is only noted here.

## Model

| member | source | states |
|---|---|---|
| `Documents.StatusName` | src/server.cjs:34-38 | every status is spelled as one of the three enum strings, and parsing that spelling gives the status back |
| `Documents.ParseStatus` | src/server.cjs:34-38 | a string passes enum validation exactly when it is `pending`, `accepted` or `rejected` |
| `Documents.ParsedStatusIsSpelled` | src/server.cjs:34-38 | every string that passes enum validation is the spelling of the status it parses to |
| `Documents.Field` | src/server.cjs:112 | a body key that is missing gives an absent (undefined) value; a present key gives its value |
| `Server.ListApplications` | src/server.cjs:48-55 | for a castable id, the listing holds exactly the stored applications whose `projectId` is that id, unchanged, and an empty listing when there are none; an uncastable id gives 500; the store never changes |
| `Server.BuildApplication` | src/server.cjs:26-43 | the schema keeps the submitted fields; `status` defaults to pending, `notificationSent` to false and `Cgpa` to empty; the document is refused when the project id cannot be cast or the status is outside the enum |
| `Server.CreateApplication` | src/server.cjs:57-65 | a refused document gives 500 and changes nothing; otherwise 201 with the document, stored under the new id with every other record unchanged; whether the project exists is not checked |
| `Server.ReviewTarget` | src/server.cjs:74-76 | only `accepted` and `rejected` are review targets; `pending`, a missing value and any other string are not |
| `Server.UpdateStatus` | src/server.cjs:67-97 | an invalid status gives 400 whatever the id, before any lookup; an uncastable id gives 500; an absent id gives 404; all three leave the store unchanged; otherwise the status is the requested one, `notificationSent` is true, the applicant fields and every other record are unchanged, and the response carries the saved document |
| `Server.ListProjects` | src/server.cjs:101-108 | the response carries every stored project and the store is unchanged |
| `Server.CreateProject` | src/server.cjs:110-119 | the new id is added and every existing project is unchanged; the stored record holds exactly the body's `projectName`, `projectDescription` and `teamSize`, and the response carries it with its id |
| `Server.DeleteProject` | src/server.cjs:121-137 | a malformed id gives 400 before the store is consulted; an absent id gives 404; both change nothing; otherwise exactly that project is removed, the others are unchanged, and its applications stay |
| `ServerProperties.InvalidStatusRefusedBeforeLookup` | src/server.cjs:74-81 | for an invalid status, the response is the same for any store and any id, and the store is unchanged |
| `ServerProperties.ReviewOverwritesAnyStatus` | src/server.cjs:83-90 | whatever the stored status, including an already reviewed one, either review target overwrites it |
| `ServerProperties.LastReviewWins` | src/server.cjs:83-92 | two valid reviews of one id leave the store the second alone would |
| `ServerProperties.ReviewIdempotent` | src/server.cjs:74-92 | applying the same status update twice gives the store that applying it once gives |
| `ServerProperties.DeleteTwiceNotFound` | src/server.cjs:121-133 | deleting an existing project succeeds, and deleting it again gives 404 and changes nothing |
| `ServerProperties.CreateThenList` | src/server.cjs:101-115 | after a create, the listing has one more entry: the new project under its id with the body's fields, plus every earlier project unchanged |
| `ServerProperties.CreateIgnoresOtherKeys` | src/server.cjs:110-114 | two bodies that agree on the three project keys create the same project |
| `ServerProperties.NewApplicationDefaults` | src/server.cjs:26-43 | an application posted without `status` and `notificationSent` is created pending and not notified |
| `ServerProperties.HandlersPreserveWellFormed` | src/server.cjs:26-27 | every handler keeps all stored ids and project references castable |
| `ServerProperties.FreshDatabaseListsNothing` | src/server.cjs:48-51 | on an empty database, the project listing is empty and the application listing for any well-formed id is an empty list, not an error |
| `ServerProperties.ProjectLifecycle` | src/server.cjs:57-92 | create a project, apply to it, list (one pending application), accept, list again (the same application, accepted) |
| `CardComponent.CardsOf` | src/components/Card.jsx:40-45 | one card per fetched project, in order |
| `CardComponent.ProjectsFetched` | src/components/Card.jsx:35-49 | the cards become the three static cards followed by one card per project, in order, with `id = _id`, `title = projectName`, `description = projectDescription`, so 3 + n cards; a failed fetch changes nothing; no other field changes |
| `CardComponent.CardClicked` | src/components/Card.jsx:52-63 | a card with a (truthy) id becomes the selected project, leaves `formVisible` as it was and requests its applications; any other card opens the form and clears the selection |
| `CardComponent.ApplicationsFetched` | src/components/Card.jsx:55-58 | fetched applications replace the list; a failed fetch changes nothing |
| `CardComponent.InputChanged` | src/components/Card.jsx:65-71 | the named field takes the typed value; the other two fields and the rest of the state are unchanged |
| `CardComponent.SubmitReplied` | src/components/Card.jsx:114-141 | on an ok, parseable reply, exactly one card is appended after the old ones, with the new project's id, name and description; the form hides and its fields are cleared; any failure changes nothing |
| `CardComponent.RemoveCards` | src/components/Card.jsx:150 | the kept cards are exactly those whose id is not the deleted one |
| `CardComponent.DeleteReplied` | src/components/Card.jsx:143-157 | an ok reply removes exactly the cards with that id and nothing else in the state; a failed or rejected request changes nothing |
| `CardComponent.ReviewRows` | src/components/Card.jsx:91-93 | the length is kept; rows with the reviewed id get the returned status; every other row is unchanged |
| `CardComponent.StatusReplied` | src/components/Card.jsx:73-110 | a JSON, parseable, ok reply updates exactly the rows with that id and announces success with the requested status; a network failure, a non-JSON reply, a parse failure or a non-ok reply leaves the rows alone and announces the error message; only rows and notification change |
| `CardComponent.StatusFailure` | src/components/Card.jsx:73-109 | the message of the caught error: a rejected fetch gives its reason; a missing header or one without `application/json` gives "Expected JSON response, but got something else."; a body that passes the guard but does not parse gives the parse error; a parsed non-ok body gives its `message` when that is non-empty, otherwise "Failed to update application status" |
| `CardComponent.PanelOf` | src/components/Card.jsx:180-218 | the form shows exactly when `formVisible`; the details show exactly when a project is selected and the form is hidden |
| `CardProperties.RemoveCardsAppend` | src/components/Card.jsx:150 | filtering distributes over concatenation, so the kept cards keep their order |
| `CardProperties.RemoveCardsAbsent` | src/components/Card.jsx:150 | a list with no card of that id is unchanged |
| `CardProperties.RemoveCardsIdempotent` | src/components/Card.jsx:150 | deleting the same id twice leaves what deleting once leaves |
| `CardProperties.DeleteKeepsStaticCards` | src/components/Card.jsx:149-167 | static cards offer no delete, and every delete keeps them, first and in order |
| `CardProperties.SubmitThenDelete` | src/components/Card.jsx:124-150 | a successful submit followed by a successful delete of the new id restores the earlier card list |
| `CardProperties.FailedDeleteKeepsCourses` | src/components/Card.jsx:149-156 | a non-ok reply or a rejected request leaves the cards unchanged |
| `CardProperties.ReviewRowsLastWins` | src/components/Card.jsx:91-93 | of two reviews of one application, the second one's status stays, so a repeated review changes nothing more |
| `CardProperties.ReviewKeepsIds` | src/components/Card.jsx:91-93 | a review never changes which application sits at which position, nor the applicant data |
| `CardProperties.UnconfirmedReviewKeepsRows` | src/components/Card.jsx:81-109 | a non-JSON or non-ok reply leaves the rows unchanged and raises an error notification |
| `CardProperties.CardsOfAppend` | src/components/Card.jsx:40-46 | mapping projects to cards commutes with concatenation |
| `CardProperties.FetchThenSubmit` | src/components/Card.jsx:126-132 | loading n projects and then submitting one more gives the same cards as loading all n + 1 |
| `CardProperties.FetchedProjectsOfferDelete` | src/components/Card.jsx:166-170 | after a load, a card offers delete exactly when it is a project card and not a static one |
| `CardProperties.TypedValueIsPosted` | src/components/Card.jsx:65-71 | the value typed into a field is the value the form posts under that key |
| `CardProperties.MountThenFetch` | src/components/Card.jsx:23-49 | at mount the panel is closed and only the three static cards show; a successful project fetch puts the project cards after them and changes no other field; a failed fetch keeps the static cards |
| `CardProperties.ClickMovesPanel` | src/components/Card.jsx:52-62 | a click on a card with an id shows its details unless the form is open; any other click opens the form |
| `CardProperties.StaticCardsOpenForm` | src/components/Card.jsx:52-62 | each static category card, like the Upload card, opens the form |
| `CardProperties.OpenFormHidesDetails` | src/components/Card.jsx:218 | while the form is open, no sequence of clicks shows a project's details |
| `CardProperties.SubmitMovesPanel` | src/components/Card.jsx:133 | a successful submit hides the form; the panel then shows the selected project, if one is selected, else nothing |
| `CardProperties.SubmitRevealsProjectClickedWhileFormOpen` | src/components/Card.jsx:124-134 | open the form, click a project, submit: that project's details appear |
| `Wire.ReplyOf` | src/server.cjs:67-97 | a 2xx response reaches the component as ok JSON, and a 400, 404 or 500 as non-ok HTML text |
| `Wire.JsonTypeIsJson` | src/components/Card.jsx:81-84 | the content type of a JSON response passes the component's guard |
| `Wire.MissingCharExcludes` | src/components/Card.jsx:82 | a string that lacks one character of `application/json` does not include it |
| `Wire.TextTypeIsNotJson` | src/components/Card.jsx:81-84 | the content type of a text response fails the component's guard |
| `Wire.ReviewEndToEnd` | src/server.cjs:67-92 | accepting or rejecting an existing application stores the target status, and the component shows it in every row of that application with a success banner |
| `Wire.RefusedReviewShowsContentTypeError` | src/components/Card.jsx:81-84 | every refused status update leaves the rows unchanged and shows the content-type error, never the server's text |
| `Wire.SubmitEndToEnd` | src/components/Card.jsx:114-134 | the server stores the three typed values under the new id, and the component appends the card with that id, name and description and clears the form |
| `Wire.DeleteEndToEnd` | src/server.cjs:121-137 | an existing project leaves both the store and the page; an unknown or malformed id changes neither |

## Left out

- Express and Mongoose plumbing (`src/server.cjs:1-14`, `139-142`) is not modelled: app setup, body parsing, CORS, the connection and `listen`. The collections are maps, and the order in which `find()` returns documents is not modelled.
- Database failures that reach the 500 catch branches are not modelled. The exceptions are the 500s that follow from the schema: an uncastable id in a query or in an application's `projectId`, and a status outside the enum on creation.
- Mongoose type casting is not modelled. `teamSize` keeps the value the client sent, not a `Number`. Casts of the other string, number and boolean fields are not modelled, and ids are compared as plain strings, not as normalised hex.
- The body of POST /api/applications contains only schema keys. A client-supplied `_id` is not modelled.
- `Server.UpdateStatus` takes the status as an optional string. A non-string JSON value behaves like any other string outside the enum, so it is not modelled separately.
- The notification log line (`src/server.cjs:87`) and all other console output are not modelled. The first save, with `notificationSent = false`, is an intermediate state inside `Server.UpdateStatus` and is not observable.
- `fetch`, promises and async ordering are not modelled. The reply is an input to each reducer. `handleApplicationStatus` maps over the `applications` captured when it was called, and overlapping replies can apply stale data; neither is modelled.
- The error messages of a rejected `fetch` and of a failed JSON parse come from the runtime. They are inputs.
- `CardComponent.SubmitReplied` models an ok reply's body as a project document. A 2xx reply carrying other JSON is not modelled, because the server's create handler only answers with the saved project.
- The `setTimeout` that clears the notification after three seconds (`src/components/Card.jsx:100`) is not modelled. It is timing.
- JSX rendering, icons and the browser's `required` check on the form inputs are not modelled. The only rendering kept is what decides which panel shows.
- `src/components/Sidebar.jsx` and `src/components/Content.jsx` are not modelled. They are static markup.
