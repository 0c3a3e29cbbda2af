# Query/answer view-state controller of the SciCo demo pages

The SciCo site's home page and its screening page each carry the same
query/answer controller, kept from a demo template: change handlers for a
question and two answer choices, a submit handler that calls a remote solver,
and a mount rule that fetches a query read from the URL. The model covers this
controller as written. On both pages `render` shows static prose only: it
binds none of the handlers and never reads the view, the answer or the error,
so the only part that runs on the live site is the fetch on mount, whose
result is stored but not shown. The component keeps four state fields, updated with `setState`: the `query` in the form, a
four-valued `view` (empty, loading, answer, error), the last `answer` and the
last `error` message. A fetch captures the query current when it starts, and
its outcome is applied only if the form still holds that query when the call
settles, so a slow, superseded response never overwrites a newer one.

The two copies (`ui/src/pages/Home.tsx` lines 39-220 and
`ui/src/pages/Screening.tsx` lines 27-208, both in a class named `Home`) are
textually identical, so one model covers the controller code of both; the table below cites either
copy, line numbers in Screening.tsx being those of Home.tsx minus 12.

Files:

- `wrappers.dfy` — `Option`, for the optional state fields.
- `api.dfy` — the values imported from the API client: `Query` (question and
  exactly two choices, structural equality, one-input edits), `Answer`, and
  the error object of a rejected call (optional response with a status and an
  optional body carrying an optional server message).
- `view_state.dfy` — the state record, the transitions as pure functions
  (edit, fetch, settle, mount), the error-message choice, the consistency
  invariant, an event trace (`Run`) and the lemmas about it.
- `home.dfy` — class `Home` with the four state fields and the browser
  history, whose methods update the fields in place and are proved to perform
  the transitions of `view_state.dfy` and to keep the invariant.

The asynchronous `solve` call is not run: `FetchAnswer` returns a `Request`
holding the captured query (the closure's `originalQuery`), and the two
callbacks of the promise are the methods `OnSolved` and `OnSolveFailed`,
which receive that request and the outcome from outside.

The model follows the code's state layout: the view is not a sum type
carrying the answer or the message, but an enumeration beside separate
optional `answer` and `error` fields, and starting a fetch keeps the
previous answer or error while the view is loading. The invariant
`Consistent` states what the code nevertheless guarantees: never an answer
and an error at once, never an empty message, an answer behind the answer
view and a message behind the error view, neither before the first fetch.

## Model

| member | source | states |
|---|---|---|
| HomePage.Home.constructor | ui/src/pages/Home.tsx:65-71 | the page starts with the query read from the location, view empty, no answer and no error |
| HomePage.Home.FetchAnswer | ui/src/pages/Home.tsx:88-93 | the view becomes loading, nothing else changes, and the request captures the query current at that moment |
| HomePage.Home.OnSolved | ui/src/pages/Home.tsx:95-106 | when the current query equals the captured one the view shows the answer, the answer is stored and the error cleared; otherwise the state is left unchanged |
| HomePage.Home.OnSolveFailed | ui/src/pages/Home.tsx:108-137 | when the current query equals the captured one the view shows an error, the answer is cleared and the derived message stored; otherwise nothing changes |
| HomePage.Home.HandleQuestionChange | ui/src/pages/Home.tsx:148-153 | the question is replaced, both choices, the view, the answer and the error are kept |
| HomePage.Home.HandleFirstAnswerChange | ui/src/pages/Home.tsx:162-167 | the first choice is replaced, the question and the second choice are kept, nothing else changes |
| HomePage.Home.HandleSecondAnswerChange | ui/src/pages/Home.tsx:176-181 | the second choice is replaced, the question and the first choice are kept, nothing else changes |
| HomePage.Home.HandleSubmit | ui/src/pages/Home.tsx:193-204 | a submission always pushes the current query onto the history and starts a fetch, leaving the view loading |
| HomePage.Home.ComponentDidMount | ui/src/pages/Home.tsx:216-220 | a fetch starts exactly when the query is valid and no answer for it is held; otherwise the state is untouched |
| Api.Query.Equals | ui/src/pages/Home.tsx:100 | query equality holds exactly when question and both choices coincide |
| Api.Query.With | ui/src/pages/Screening.tsx:136-169 | the query built by a change handler holds the new text in the edited input and the old text in the two others |
| Api.SameInputsSameQuery | ui/src/pages/Screening.tsx:139 | two queries agreeing on all three inputs are equal |
| Api.EditIsDetermined | ui/src/pages/Screening.tsx:136-169 | a handler's edit is determined by the input it replaces: any query with the new text there and the old text in the other two inputs is the edited query |
| ViewState.HasAnswerForCurrentQuery | ui/src/pages/Home.tsx:79-81 | holds exactly when an answer is held and the query it answers equals the current query |
| ViewState.EditField | ui/src/pages/Screening.tsx:136-169 | an edit changes exactly one input of the query and leaves view, answer and error as they were |
| ViewState.ErrorMessage | ui/src/pages/Home.tsx:114-130 | the message is the server's non-empty message if present, else the overload notice when the status is 503, else the generic text; it is never empty |
| ViewState.Resolve | ui/src/pages/Screening.tsx:83-124 | an outcome never changes the query; it is discarded when the query no longer equals the captured one, and otherwise gives the answer view with the error cleared or the error view with the answer cleared |
| ViewState.InitialIsConsistent | ui/src/pages/Screening.tsx:53-59 | the initial state satisfies the consistency invariant |
| ViewState.StepPreservesConsistent | ui/src/pages/Screening.tsx:76-192 | each edit, submission and settled call preserves the consistency invariant |
| ViewState.MountPreservesConsistent | ui/src/pages/Screening.tsx:204-208 | the mount rule preserves the consistency invariant |
| ViewState.RunPreservesConsistent | ui/src/pages/Home.tsx:88-204 | any sequence of edits, submissions and settled calls preserves the invariant: never both an answer and an error, never an empty message |
| ViewState.ReachableIsConsistent | ui/src/pages/Screening.tsx:52-208 | every state reachable from construction, mount and later events is consistent |
| ViewState.EditsKeepView | ui/src/pages/Screening.tsx:136-169 | any number of edits changes only the query; view, answer and error are as before |
| ViewState.MountOnLoad | ui/src/pages/Screening.tsx:204-208 | at first mount no answer is held, so the page fetches exactly when the location's query is valid |
| ViewState.DeepLinkSettles | ui/src/pages/Home.tsx:209-220 | a valid query in the location is fetched on mount, and the page then ends showing an answer or an error, never empty |
| ViewState.EditedAwayOutcomeIsDiscarded | ui/src/pages/Screening.tsx:83-99 | if the user edits the form away from an in-flight query, its outcome is discarded and the page stays loading |
| ViewState.DistinctResubmissionWins | ui/src/pages/Screening.tsx:76-99 | after submitting q1, editing to a different q2 and submitting again, q1's late outcome changes nothing once q2's has been applied |
| ViewState.SameQueryLastOutcomeShown | ui/src/pages/Home.tsx:92-106 | the guard compares queries, not requests: when one query is submitted twice, the outcome that settles last is shown even if it belongs to the earlier call |

## Left out

- The `solve` network call is not modelled; its success or failure is an outcome supplied to `OnSolved` or `OnSolveFailed`.
- The solver's result inside an `Answer` is kept as opaque text; the client's `Answer` type is not part of this model.
- `Query.fromQueryString`, `Query.toQueryString` and the body of `Query.isValid` live in the API client, which is not part of this model: the constructor takes the already-parsed query, the history records the query rather than its URL text, and validity is a parameter of the mount rule.
- `history.push` is recorded as appending the submitted query to `history`; browser navigation itself is not modelled.
- HomePage.Home.HandleSubmit: in the Screening copy the pushed URL is `/?…`, the route of the home page, so a submission there would leave the screening page that started the fetch; the model, which does not model navigation, keeps the component alive after a submit.
- The page markup is not modelled, and with it the fact that neither page renders the form, binds the handlers or displays the view, the answer or the error.
- Each `setState` is an atomic update of the named fields; React's batching and callback timing are not modelled. `solve` reads the query inside the `setState` callback; no handler can run between a `setState` and its callback, so the model treats the query sent as the captured one.
- A server message that is not a string (the code only tests it for truthiness) is not modelled; the message is an optional string, truthy when non-empty.
- The success callback does not check that the returned answer's own query equals the submitted one, and neither does the model.
- `render`, the styled components, and the static pages, routing table, bootstrap and build configuration carry no state and are not modelled.
