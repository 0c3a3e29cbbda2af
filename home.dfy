/** The page component that holds the form and the view state. Its state
    fields are updated in place, one `setState` at a time. Each method is
    proved to keep the state consistent and to perform a transition of
    ViewState: `FetchAnswer` and `HandleSubmit` perform `Fetch`, `OnSolved`
    and `OnSolveFailed` perform `Resolve`, the three change handlers perform
    `EditField`, and `ComponentDidMount` performs `Mount`. */
module HomePage {
  import opened Wrappers
  import opened Api
  import opened ViewState

  class Home {
    var query: Query
    var view: View
    var answer: Option<Answer>
    var error: Option<string>
    /** The entries pushed onto the browser history, each the query its URL
        encodes. */
    var history: seq<Query>

    /** The component's state as one value. */
    function State(): PageState
      reads this
    {
      PageState(query, view, answer, error)
    }

    ghost predicate Valid()
      reads this
    {
      Consistent(State())
    }

    /** A new page: the query is the one read from the location, nothing is
        shown yet. */
    constructor (location: Query)
      ensures Valid()
      ensures State() == Initial(location)
      ensures view == Empty && answer == None && error == None && query == location
      ensures history == []
    {
      query := location;
      view := Empty;
      answer := None;
      error := None;
      history := [];
    }

    /** Starts a fetch for the current query: the view turns to loading and
        the returned request captures the query the outcome must match. */
    method FetchAnswer() returns (req: Request)
      requires Valid()
      modifies this`view
      ensures Valid()
      ensures State() == Fetch(old(State()))
      ensures view == Loading && req == Request(old(query))
    {
      req := Request(query);
      view := Loading;
    }

    /** The success callback of the fetch that captured `req`. */
    method OnSolved(req: Request, a: Answer)
      requires Valid()
      modifies this`view, this`answer, this`error
      ensures Valid()
      ensures State() == Resolve(old(State()), req, Solved(a))
      ensures query == req.original ==> view == Answered && answer == Some(a) && error == None
      ensures query != req.original ==> unchanged(this)
    {
      if query.Equals(req.original) {
        view := Answered;
        error := None;
        answer := Some(a);
      }
    }

    /** The failure callback of the fetch that captured `req`. */
    method OnSolveFailed(req: Request, err: SolveError)
      requires Valid()
      modifies this`view, this`answer, this`error
      ensures Valid()
      ensures State() == Resolve(old(State()), req, Rejected(err))
      ensures query == req.original ==> view == Errored && answer == None && error == Some(ErrorMessage(err))
      ensures query != req.original ==> unchanged(this)
    {
      if query.Equals(req.original) {
        view := Errored;
        answer := None;
        error := Some(ErrorMessage(err));
      }
    }

    method HandleQuestionChange(value: string)
      requires Valid()
      modifies this`query
      ensures Valid()
      ensures State() == EditField(old(State()), Question, value)
      ensures query.question == value && query.choices == old(query.choices)
    {
      query := Query(value, query.choices);
    }

    method HandleFirstAnswerChange(value: string)
      requires Valid()
      modifies this`query
      ensures Valid()
      ensures State() == EditField(old(State()), FirstChoice, value)
      ensures query.question == old(query.question) && query.choices == (value, old(query.choices.1))
    {
      query := Query(query.question, (value, query.choices.1));
    }

    method HandleSecondAnswerChange(value: string)
      requires Valid()
      modifies this`query
      ensures Valid()
      ensures State() == EditField(old(State()), SecondChoice, value)
      ensures query.question == old(query.question) && query.choices == (old(query.choices.0), value)
    {
      query := Query(query.question, (query.choices.0, value));
    }

    /** Form submission: the query is pushed onto the history, then fetched. */
    method HandleSubmit() returns (req: Request)
      requires Valid()
      modifies this`history, this`view
      ensures Valid()
      ensures history == old(history) + [old(query)]
      ensures State() == Fetch(old(State()))
      ensures view == Loading && req == Request(old(query))
    {
      history := history + [query];
      req := FetchAnswer();
    }

    /** Runs once after the first render: fetches when the query is valid and
        no answer for it is held, and otherwise changes nothing. */
    method ComponentDidMount(isValid: Query -> bool) returns (req: Option<Request>)
      requires Valid()
      modifies this`view
      ensures Valid()
      ensures State() == Mount(old(State()), isValid)
      ensures req.Some? <==> isValid(old(query)) && !HasAnswerForCurrentQuery(old(State()))
      ensures req.Some? ==> req.value == Request(old(query)) && view == Loading
      ensures req.None? ==> unchanged(this)
    {
      if isValid(query) && !HasAnswerForCurrentQuery(State()) {
        var r := FetchAnswer();
        req := Some(r);
      } else {
        req := None;
      }
    }
  }
}
