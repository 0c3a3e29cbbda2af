/** The page's view-state machine as pure functions over its state: the four
    views, the state record held by the component, and what each handler and
    each outcome of an in-flight `solve` call does to it. The class in
    home.dfy performs these same transitions in place. */
module ViewState {
  import opened Wrappers
  import opened Api

  /** What the page shows: nothing yet, a spinner, an answer or an error. */
  datatype View = Empty | Loading | Answered | Errored

  /** The component's state: the query in the form, the view, and the last
      answer and error message, each of which may be absent. */
  datatype PageState = PageState(query: Query, view: View, answer: Option<Answer>, error: Option<string>)

  /** The query captured when a fetch starts. An outcome of that fetch is
      applied only while the current query still equals it. */
  datatype Request = Request(original: Query)

  /** How an in-flight `solve` call settles. */
  datatype Outcome = Solved(answer: Answer) | Rejected(err: SolveError)

  const OverloadedMessage: string := "Our system is a little overloaded, please try again in a moment"
  const FallbackMessage: string := "Something went wrong. Please try again."

  /** The state a freshly constructed page starts in, with the query read
      from the location. */
  function Initial(location: Query): PageState
  {
    PageState(location, Empty, None, None)
  }

  /** Whether an answer is held and it answers the query now in the form. */
  predicate HasAnswerForCurrentQuery(s: PageState)
    ensures HasAnswerForCurrentQuery(s) <==> s.answer.Some? && s.answer.value.query == s.query
  {
    s.answer.Some? && s.answer.value.query.Equals(s.query)
  }

  /** A change handler: one input of the query is replaced. */
  function EditField(s: PageState, f: Field, value: string): (r: PageState)
    ensures r.query.Get(f) == value
    ensures forall g :: g != f ==> r.query.Get(g) == s.query.Get(g)
    ensures r.view == s.view && r.answer == s.answer && r.error == s.error
  {
    s.(query := s.query.With(f, value))
  }

  /** Starting a fetch: the view turns to loading; the held answer and error
      stay until the outcome arrives. The request is `Request(s.query)`. */
  function Fetch(s: PageState): PageState
  {
    s.(view := Loading)
  }

  /** JavaScript truthiness of an optional string: present and non-empty. */
  predicate Truthy(o: Option<string>)
  {
    o.Some? && o.value != ""
  }

  /** The server's own message, when the response carries a non-empty one. */
  function ServerMessage(err: SolveError): Option<string>
  {
    if err.response.Some? && err.response.value.data.Some? && Truthy(err.response.value.data.value.error)
    then err.response.value.data.value.error
    else None
  }

  /** The service reported overload (HTTP status 503). */
  predicate IsOverloaded(err: SolveError)
  {
    err.response.Some? && err.response.value.status == 503
  }

  /** The message shown for a rejected call, chosen in priority order: the
      server's message, then the overload notice, then a generic one. */
  function ErrorMessage(err: SolveError): (msg: string)
    ensures msg != ""
    ensures ServerMessage(err).Some? ==> msg == ServerMessage(err).value
    ensures ServerMessage(err).None? && IsOverloaded(err) ==> msg == OverloadedMessage
    ensures ServerMessage(err).None? && !IsOverloaded(err) ==> msg == FallbackMessage
  {
    var specific: Option<string> :=
      match err.response
      case None => None
      case Some(response) =>
        if response.data.Some? && Truthy(response.data.value.error) then response.data.value.error
        else if response.status == 503 then Some(OverloadedMessage)
        else None;
    if Truthy(specific) then specific.value else FallbackMessage
  }

  /** An outcome arriving for `req`: applied only if the current query equals
      the captured one, otherwise discarded without any change. */
  function Resolve(s: PageState, req: Request, outcome: Outcome): (r: PageState)
    ensures r.query == s.query
    ensures s.query != req.original ==> r == s
    ensures s.query == req.original && outcome.Solved? ==>
              r.view == Answered && r.answer == Some(outcome.answer) && r.error == None
    ensures s.query == req.original && outcome.Rejected? ==>
              r.view == Errored && r.answer == None && r.error == Some(ErrorMessage(outcome.err))
  {
    if !s.query.Equals(req.original) then s
    else
      match outcome
      case Solved(a) => s.(view := Answered, error := None, answer := Some(a))
      case Rejected(err) => s.(view := Errored, answer := None, error := Some(ErrorMessage(err)))
  }

  /** The mount rule: fetch once if the query is valid and no answer for it is
      held. Validity is decided by the API client and is a parameter here. */
  function Mount(s: PageState, isValid: Query -> bool): PageState
  {
    if isValid(s.query) && !HasAnswerForCurrentQuery(s) then Fetch(s) else s
  }

  /** Consistency of the state fields that every reachable state keeps: never
      an answer and an error at once, no empty message, and each view backed
      by the field it displays. */
  predicate Consistent(s: PageState)
  {
    (s.error.Some? ==> s.error.value != "") &&
    !(s.answer.Some? && s.error.Some?) &&
    (s.view == Empty ==> s.answer.None? && s.error.None?) &&
    (s.view == Answered ==> s.answer.Some?) &&
    (s.view == Errored ==> s.error.Some?)
  }

  /** What the user or the network can do to a mounted page. */
  datatype Event =
    | FieldEdited(field: Field, value: string)
    | Submitted
    | Settled(req: Request, outcome: Outcome)

  function Step(s: PageState, e: Event): PageState
  {
    match e
    case FieldEdited(f, value) => EditField(s, f, value)
    case Submitted => Fetch(s)
    case Settled(req, outcome) => Resolve(s, req, outcome)
  }

  /** The state after a sequence of events, applied in order. */
  function Run(s: PageState, events: seq<Event>): PageState
    decreases |events|
  {
    if events == [] then s else Run(Step(s, events[0]), events[1..])
  }

  predicate OnlyEdits(events: seq<Event>)
  {
    forall i :: 0 <= i < |events| ==> events[i].FieldEdited?
  }

  lemma InitialIsConsistent(location: Query)
    ensures Consistent(Initial(location))
  {
  }

  lemma StepPreservesConsistent(s: PageState, e: Event)
    requires Consistent(s)
    ensures Consistent(Step(s, e))
  {
  }

  lemma MountPreservesConsistent(s: PageState, isValid: Query -> bool)
    requires Consistent(s)
    ensures Consistent(Mount(s, isValid))
  {
  }

  /** Every sequence of edits, submissions and settled calls keeps the state
      consistent; in particular a displayed error is never empty. */
  lemma {:induction false} RunPreservesConsistent(s: PageState, events: seq<Event>)
    requires Consistent(s)
    ensures Consistent(Run(s, events))
    decreases |events|
  {
    if events != [] {
      StepPreservesConsistent(s, events[0]);
      RunPreservesConsistent(Step(s, events[0]), events[1..]);
    }
  }

  /** Every state the page can reach from its location, through the mount
      rule and any later events, is consistent. */
  lemma ReachableIsConsistent(location: Query, isValid: Query -> bool, events: seq<Event>)
    ensures Consistent(Run(Mount(Initial(location), isValid), events))
  {
    InitialIsConsistent(location);
    MountPreservesConsistent(Initial(location), isValid);
    RunPreservesConsistent(Mount(Initial(location), isValid), events);
  }

  /** Editing the form, however many times, changes only the query: the view,
      the answer and the error stay as they were. */
  lemma {:induction false} EditsKeepView(s: PageState, edits: seq<Event>)
    requires OnlyEdits(edits)
    ensures Run(s, edits) == s.(query := Run(s, edits).query)
    decreases |edits|
  {
    if edits != [] {
      assert edits[0].FieldEdited?;
      assert OnlyEdits(edits[1..]) by {
        forall i | 0 <= i < |edits[1..]| ensures edits[1..][i].FieldEdited? {
          assert edits[1..][i] == edits[i + 1];
        }
      }
      EditsKeepView(Step(s, edits[0]), edits[1..]);
    }
  }

  /** At first mount no answer is held, so the page fetches exactly when the
      query from the location is valid. */
  lemma MountOnLoad(location: Query, isValid: Query -> bool)
    ensures Mount(Initial(location), isValid) ==
              if isValid(location) then Fetch(Initial(location)) else Initial(location)
    ensures Mount(Initial(location), isValid).view == Loading <==> isValid(location)
  {
  }

  /** Deep link: a valid query in the location is fetched on mount, and once
      that call settles the page shows an answer or an error, never Empty. */
  lemma DeepLinkSettles(location: Query, isValid: Query -> bool, outcome: Outcome)
    requires isValid(location)
    ensures Resolve(Mount(Initial(location), isValid), Request(location), outcome).view ==
              if outcome.Solved? then Answered else Errored
  {
    MountOnLoad(location, isValid);
  }

  /** A fetch whose query the user edits away from is discarded when it
      settles: the page keeps showing the spinner until a new submission. */
  lemma {:induction false} EditedAwayOutcomeIsDiscarded(s: PageState, edits: seq<Event>, outcome: Outcome)
    requires OnlyEdits(edits)
    requires Run(Fetch(s), edits).query != s.query
    ensures Resolve(Run(Fetch(s), edits), Request(s.query), outcome) == Run(Fetch(s), edits)
    ensures Run(Fetch(s), edits).view == Loading
  {
    EditsKeepView(Fetch(s), edits);
  }

  /** A resubmission of a different query wins: submit q1, edit the form to
      a different q2 and submit again; once q2's call has settled, q1's late
      outcome changes nothing, so the page shows q2's outcome only. */
  lemma {:induction false} DistinctResubmissionWins(s: PageState, edits: seq<Event>, first: Outcome, second: Outcome)
    requires OnlyEdits(edits)
    requires Run(Fetch(s), edits).query != s.query
    ensures var s2 := Run(Fetch(s), edits);
            var afterSecond := Resolve(Fetch(s2), Request(s2.query), second);
            Resolve(afterSecond, Request(s.query), first) == afterSecond &&
            afterSecond.view == (if second.Solved? then Answered else Errored)
  {
  }

  /** The guard compares queries, not requests: when the same query is
      submitted twice, whichever outcome settles last is shown, even if it
      belongs to the earlier of the two calls. */
  lemma SameQueryLastOutcomeShown(s: PageState, earlier: Answer, later: Answer)
    ensures var first := Request(s.query);
            var second := Request(Fetch(s).query);
            first == second &&
            Resolve(Resolve(Fetch(Fetch(s)), second, Solved(later)), first, Solved(earlier)).answer == Some(earlier)
  {
  }
}
