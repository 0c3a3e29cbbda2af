/** The values the page imports from its API client: `Query`, `Answer`, and the
    shape of the error object a rejected `solve` call delivers. The client's own
    code (`solve`, URL encoding, `isValid`) is not part of this model. */
module Api {
  import opened Wrappers

  /** The three text inputs of the form. */
  datatype Field = Question | FirstChoice | SecondChoice

  /** A question with exactly two answer choices. Values are immutable: every
      edit of the form builds a new query. */
  datatype Query = Query(question: string, choices: (string, string))
  {
    /** The text held in one input of the form. */
    function Get(f: Field): string
    {
      match f
      case Question => question
      case FirstChoice => choices.0
      case SecondChoice => choices.1
    }

    /** Structural equality: question and both choices match exactly. */
    predicate Equals(other: Query)
      ensures Equals(other) <==> this == other
    {
      question == other.question && choices.0 == other.choices.0 && choices.1 == other.choices.1
    }

    /** The query a change handler builds: one input replaced, the others kept. */
    function With(f: Field, value: string): (r: Query)
      ensures r.Get(f) == value
      ensures forall g :: g != f ==> r.Get(g) == Get(g)
    {
      match f
      case Question => Query(value, choices)
      case FirstChoice => Query(question, (value, choices.1))
      case SecondChoice => Query(question, (choices.0, value))
    }
  }

  /** A query is nothing more than its three inputs: two queries that agree on
      every input are the same query. With `With`'s contract this says that an
      edit is exactly "replace one input". */
  lemma SameInputsSameQuery(a: Query, b: Query)
    requires forall f :: a.Get(f) == b.Get(f)
    ensures a == b
  {
    assert a.Get(Question) == b.Get(Question);
    assert a.Get(FirstChoice) == b.Get(FirstChoice);
    assert a.Get(SecondChoice) == b.Get(SecondChoice);
  }

  /** An edit is determined by the input it replaces: any query holding the
      new text in the edited input and the old text in the other two is the
      one `With` builds. */
  lemma EditIsDetermined(q: Query, f: Field, value: string, r: Query)
    requires r.Get(f) == value
    requires forall g :: g != f ==> r.Get(g) == q.Get(g)
    ensures r == q.With(f, value)
  {
    forall g ensures r.Get(g) == q.With(f, value).Get(g) {
    }
    SameInputsSameQuery(r, q.With(f, value));
  }

  /** The solver's reply, paired with the query it answers. The result itself
      is opaque to the page and is kept as text. */
  datatype Answer = Answer(query: Query, payload: string)

  /** The body of an error response; `error` is the server's own message. */
  datatype ErrorBody = ErrorBody(error: Option<string>)

  /** The HTTP response attached to a failed call. */
  datatype ErrorResponse = ErrorResponse(status: int, data: Option<ErrorBody>)

  /** What a rejected `solve` call carries; no response means none arrived. */
  datatype SolveError = SolveError(response: Option<ErrorResponse>)
}
