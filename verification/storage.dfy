/** The in-memory stores shared by the actions. Each store is one object that
    several actions hold by reference and update in place; its contents are an
    ordered sequence. */
module Storage {
  import opened Domain

  /** Live (or backup) expectations, in insertion order. */
  class ExpectationStorage {
    var expectations: seq<Expectation>

    constructor ()
      ensures expectations == []
    {
      expectations := [];
    }

    /** Appends an expectation at the end of the store. */
    method AddExpectation(expectation: Expectation)
      modifies this
      ensures expectations == old(expectations) + [expectation]
    {
      expectations := expectations + [expectation];
    }

    /** Empties the store. */
    method ClearExpectations()
      modifies this
      ensures expectations == []
    {
      expectations := [];
    }

    /** The stored expectations in insertion order, as a value: later changes
        to the store do not affect a list already returned. */
    method ListExpectations() returns (list: seq<Expectation>)
      ensures list == expectations
    {
      list := expectations;
    }
  }

  /** The history of received requests, in arrival order. */
  class RequestStorage {
    var requests: seq<Request>

    constructor ()
      ensures requests == []
    {
      requests := [];
    }

    /** Appends a request to the history. */
    method AddRequest(request: Request)
      modifies this
      ensures requests == old(requests) + [request]
    {
      requests := requests + [request];
    }
  }
}
