/** Dispatch of an inbound request: record it, select the best-matching stored
    expectation, and answer either 404 or the response the expectation's
    strategy builds. */
module SearchRequest {
  import opened Wrappers
  import opened Domain
  import opened Storage

  /** Whether a request satisfies an expectation's conditions. The comparator
      is not part of this model: any pure function of the two may stand here. */
  type Comparator = (Request, Expectation) -> bool

  /** The response strategy located for a matched expectation, applied to the
      expectation, the response under construction and the request. */
  type ResponseBuilder = (Expectation, Response, Request) -> Response

  /** No stored expectation accepts the request. */
  ghost predicate NoneMatch(matches: Comparator, request: Request, es: seq<Expectation>)
  {
    forall j :: 0 <= j < |es| ==> !matches(request, es[j])
  }

  /** Reference definition of the selection, independent of the loop: `es[k]`
      matches, no matching expectation has a higher priority, and every
      matching expectation stored before it has a strictly lower priority
      (earliest wins among ties). */
  ghost predicate IsBestMatchAt(matches: Comparator, request: Request, es: seq<Expectation>, k: int)
  {
    && 0 <= k < |es|
    && matches(request, es[k])
    && (forall j :: 0 <= j < |es| && matches(request, es[j]) ==> es[j].priority <= es[k].priority)
    && (forall j :: 0 <= j < k && matches(request, es[j]) ==> es[j].priority < es[k].priority)
  }

  /** One step of the selection: `expectation` replaces the candidate held so
      far only when it matches and nothing is held yet or its priority is
      strictly greater. */
  function NextMatchingExpectation(
    lastFound: Option<Expectation>, matches: Comparator, request: Request, expectation: Expectation
  ): (r: Option<Expectation>)
    // the candidate is either kept or replaced by the expectation inspected
    ensures r == lastFound || r == Some(expectation)
    // a non-matching expectation changes nothing
    ensures !matches(request, expectation) ==> r == lastFound
    // a replacement is always a match
    ensures r != lastFound ==> matches(request, expectation)
    // once a candidate is held one is always held, and priority never drops
    ensures lastFound.Some? ==> r.Some? && r.value.priority >= lastFound.value.priority
    // the candidate dominates every matching expectation inspected
    ensures matches(request, expectation) ==> r.Some? && r.value.priority >= expectation.priority
    // an equal-priority match does not displace the held candidate
    ensures lastFound.Some? && expectation.priority <= lastFound.value.priority ==> r == lastFound
  {
    if matches(request, expectation) && (lastFound.None? || expectation.priority > lastFound.value.priority)
    then Some(expectation)
    else lastFound
  }

  /** The selection as a left fold of the step over the stored expectations in
      order, starting from absent. */
  function BestMatch(matches: Comparator, request: Request, es: seq<Expectation>): Option<Expectation>
    decreases |es|
  {
    if es == [] then None
    else NextMatchingExpectation(BestMatch(matches, request, es[..|es| - 1]), matches, request, es[|es| - 1])
  }

  /** Appending an expectation that replaces the held candidate: it is the
      best match of the longer list. */
  lemma ReplacedIsBest(matches: Comparator, request: Request, prefix: seq<Expectation>, last: Expectation, held: Option<Expectation>, heldAt: int)
    requires matches(request, last)
    requires held.None? ==> NoneMatch(matches, request, prefix)
    requires held.Some? ==> IsBestMatchAt(matches, request, prefix, heldAt) && held.value == prefix[heldAt]
    requires held.None? || last.priority > held.value.priority
    ensures IsBestMatchAt(matches, request, prefix + [last], |prefix|)
  {
  }

  /** Appending an expectation that does not replace the held candidate: the
      candidate stays the best match of the longer list. */
  lemma KeptIsBest(matches: Comparator, request: Request, prefix: seq<Expectation>, last: Expectation, k: int)
    requires IsBestMatchAt(matches, request, prefix, k)
    requires matches(request, last) ==> last.priority <= prefix[k].priority
    ensures IsBestMatchAt(matches, request, prefix + [last], k)
  {
  }

  /** The fold is absent exactly when no stored expectation matches. */
  lemma {:induction false} BestMatchAbsentIff(matches: Comparator, request: Request, es: seq<Expectation>)
    ensures BestMatch(matches, request, es).None? <==> NoneMatch(matches, request, es)
    decreases |es|
  {
    if es != [] {
      var prefix := es[..|es| - 1];
      assert forall j :: 0 <= j < |prefix| ==> es[j] == prefix[j];
      BestMatchAbsentIff(matches, request, prefix);
    }
  }

  /** The fold meets the reference definition: when present, it is the
      expectation at position `k`, the earliest of maximal priority among the
      matching ones. */
  lemma {:induction false} BestMatchIsBest(matches: Comparator, request: Request, es: seq<Expectation>) returns (k: int)
    ensures BestMatch(matches, request, es).Some? ==> IsBestMatchAt(matches, request, es, k) && BestMatch(matches, request, es).value == es[k]
    decreases |es|
  {
    if es == [] {
      return 0;
    }
    var prefix, last := es[..|es| - 1], es[|es| - 1];
    assert es == prefix + [last];
    BestMatchAbsentIff(matches, request, prefix);
    var held := BestMatch(matches, request, prefix);
    var heldAt := BestMatchIsBest(matches, request, prefix);
    if matches(request, last) && (held.None? || last.priority > held.value.priority) {
      ReplacedIsBest(matches, request, prefix, last, held, heldAt);
      k := |prefix|;
    } else {
      if held.Some? {
        KeptIsBest(matches, request, prefix, last, heldAt);
      }
      k := heldAt;
    }
  }

  /** The reference definition pins down a single position: selection is
      deterministic. */
  lemma BestMatchAtIsUnique(matches: Comparator, request: Request, es: seq<Expectation>, k1: int, k2: int)
    requires IsBestMatchAt(matches, request, es, k1)
    requires IsBestMatchAt(matches, request, es, k2)
    ensures k1 == k2
  {
  }

  /** Three matching expectations A (priority 1), B (5) and C (5), stored in
      that order: B is selected, as the higher priority beats A and the
      earlier of the tie beats C. */
  lemma {:induction false} TieGoesToEarliest(matches: Comparator, request: Request, a: Expectation, b: Expectation, c: Expectation)
    requires a.priority == 1 && b.priority == 5 && c.priority == 5
    requires matches(request, a) && matches(request, b) && matches(request, c)
    ensures BestMatch(matches, request, [a, b, c]) == Some(b)
  {
    assert [a][..0] == [];
    assert BestMatch(matches, request, [a]) == Some(a);
    assert [a, b][..1] == [a];
    assert BestMatch(matches, request, [a, b]) == Some(b);
    assert [a, b, c][..2] == [a, b];
  }

  /** The request-handling action for every mocked path. */
  class SearchRequestAction {
    const expectationsStorage: ExpectationStorage
    const comparator: Comparator
    const responseStrategy: ResponseBuilder
    const requestsStorage: RequestStorage

    constructor (
      expectationsStorage: ExpectationStorage,
      comparator: Comparator,
      responseStrategy: ResponseBuilder,
      requestsStorage: RequestStorage)
      ensures this.expectationsStorage == expectationsStorage
      ensures this.comparator == comparator
      ensures this.responseStrategy == responseStrategy
      ensures this.requestsStorage == requestsStorage
    {
      this.expectationsStorage := expectationsStorage;
      this.comparator := comparator;
      this.responseStrategy := responseStrategy;
      this.requestsStorage := requestsStorage;
    }

    /** Records the request, then answers 404 "Not Found" when no expectation
        matches and otherwise the response the strategy builds for the
        selected expectation. The expectations are only read. */
    method Execute(request: Request, response: Response) returns (r: Response)
      modifies requestsStorage
      ensures requestsStorage.requests == old(requestsStorage.requests) + [request]
      ensures unchanged(expectationsStorage)
      ensures NoneMatch(comparator, request, expectationsStorage.expectations) ==>
        r == response.WithStatus(404, "Not Found")
      ensures !NoneMatch(comparator, request, expectationsStorage.expectations) ==>
        exists k :: IsBestMatchAt(comparator, request, expectationsStorage.expectations, k)
          && r == responseStrategy(expectationsStorage.expectations[k], response, request)
    {
      requestsStorage.AddRequest(request);
      var foundExpectation := SearchForMatchingExpectation(request);
      if foundExpectation.None? {
        return response.WithStatus(404, "Not Found");
      }
      r := responseStrategy(foundExpectation.value, response, request);
    }

    /** Walks the stored expectations in order, keeping the best candidate
        found so far. */
    method SearchForMatchingExpectation(request: Request) returns (found: Option<Expectation>)
      ensures found == BestMatch(comparator, request, expectationsStorage.expectations)
      ensures found.None? <==> NoneMatch(comparator, request, expectationsStorage.expectations)
      ensures found.Some? ==> exists k :: IsBestMatchAt(comparator, request, expectationsStorage.expectations, k) && found.value == expectationsStorage.expectations[k]
    {
      var expectations := expectationsStorage.ListExpectations();
      found := None;
      for i := 0 to |expectations|
        invariant found == BestMatch(comparator, request, expectations[..i])
      {
        assert expectations[..i + 1][..i] == expectations[..i];
        found := NextMatchingExpectation(found, comparator, request, expectations[i]);
      }
      assert expectations[..|expectations|] == expectations;
      BestMatchAbsentIff(comparator, request, expectations);
      ghost var k := BestMatchIsBest(comparator, request, expectations);
    }
  }
}
