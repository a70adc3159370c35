/** The search loop on the scripts of the client's own test table. */
module ApiSearchExamples {
  import opened Results
  import opened ApiJson
  import opened ApiErrors
  import opened ApiSearch
  import opened ApiSearchProperties
  import TwitterQuery
  import ApiJsonExamples

  /** A live search for "foo" with no token and no cursor yet. */
  const FooOptions := SearchOptions("", "", TwitterQuery.Query("foo", "", "", "", "", "", [], [], "", ""), false)

  /** The service's "forbidden" error response. */
  const Forbidden := ErrorResponse([Error(200, "forbidden")])

  /** The decoding of an empty JSON object. */
  const EmptyPage := Adaptive(GlobalObjects(map[], map[]), Timeline("", []))

  /** The activation keeps answering without a token, the search keeps being
      refused: four activations, four searches, then the limit is reported. */
  lemma RetryLimitExceededExample()
    ensures var r := Traverse(3, FooOptions, Network(seq(4, _ => Activated("")), seq(4, _ => FetchFailed(Api(Forbidden)))));
      r.status == Closed && r.activated == 4 && r.searched == 4
      && r.out == [Failure("retry limit exceeded: " + "200: forbidden")]
  {
    RetryLimit(3, FooOptions, Network(seq(4, _ => Activated("")), seq(4, _ => FetchFailed(Api(Forbidden)))));
    ForbiddenExample();
  }

  /** With retrying off the same refusal ends the loop at once. */
  lemma NoRetriesExample()
    ensures var r := Traverse(0, FooOptions, Network([Activated("")], [FetchFailed(Api(Forbidden))]));
      r.status == Closed && r.activated == 1 && r.searched == 1
      && r.out == [Failure("failed to search: " + "200: forbidden")]
  {
    NoRetries(FooOptions, Network([Activated("")], [FetchFailed(Api(Forbidden))]), "", Forbidden);
    ForbiddenExample();
  }

  /** A refused activation: one error, no search. */
  lemma GuestTokenFailureExample()
    ensures var r := Traverse(3, FooOptions, Network([ActivationFailed(Api(Forbidden))], []));
      r.status == Closed && r.activated == 1 && r.searched == 0
      && r.out == [Failure("failed to get guest token: " + "200: forbidden")]
  {
    GuestTokenFailure(3, FooOptions, Network([ActivationFailed(Api(Forbidden))], []), Api(Forbidden));
    ForbiddenExample();
  }

  /** A first page without tweets is emitted and ends the loop. */
  lemma EmptyTweetsExample()
    ensures var r := Traverse(3, FooOptions, Network([Activated("deadbeef")], [Fetched(EmptyPage)]));
      r.status == Closed && r.activated == 1 && r.searched == 1 && r.out == [Page(EmptyPage)]
  {
    Pagination(3, FooOptions, Network([Activated("deadbeef")], [Fetched(EmptyPage)]), "deadbeef", [EmptyPage], []);
  }

  /** A page holding one tweet and the bottom cursor "scroll:deadbeef". */
  const FirstPage := Adaptive(
    GlobalObjects(map["1" := ZeroTweet.(id := 1, fullText := "To Sherlock Holmes she is always the woman.")], map[]),
    Timeline("", [Instruction(
      AddEntries([ApiJsonExamples.CursorEntry(CursorBottom, "scroll:deadbeef")]),
      ApiJsonExamples.NoReplace)]))

  lemma FirstPageCursor()
    ensures FindCursor(FirstPage) == Ok("scroll:deadbeef")
  {
    var ins := FirstPage.timeline.instructions;
    assert ins[0].addEntries.entries[0].entryId == CursorBottom;
    assert FirstCarrier(ins, 0);
    assert FirstBottomEntry(ins[0].addEntries.entries, 0);
  }

  /** Two pages: one activation, both pages emitted in order, and the second
      request carries the cursor of the first page. */
  lemma RestTweetsExample()
    ensures var r := Traverse(0, FooOptions, Network([Activated("1234")], [Fetched(FirstPage), Fetched(EmptyPage)]));
      r.status == Closed && r.activated == 1 && r.searched == 2
      && r.out == [Page(FirstPage), Page(EmptyPage)]
      && r.requests == [FooOptions.(guestToken := "1234"),
                        FooOptions.(guestToken := "1234", cursor := "scroll:deadbeef")]
  {
    FirstPageCursor();
    assert "1" in FirstPage.globalObjects.tweets;
    var net := Network([Activated("1234")], [Fetched(FirstPage), Fetched(EmptyPage)]);
    Pagination(0, FooOptions, net, "1234", [FirstPage, EmptyPage], ["scroll:deadbeef"]);
  }
}
