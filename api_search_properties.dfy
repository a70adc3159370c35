/** What the search loop guarantees over whole traversals: the shape of the
    result channel, the retry budget, and the scenarios of the client's
    tests, stated for every script of the kind each test sets up. */
module ApiSearchProperties {
  import opened Results
  import opened ApiJson
  import opened ApiErrors
  import opened ApiSearch

  /** A page after which the loop looks for a cursor. */
  predicate HasTweets(res: SearchResult)
  {
    res.Page? && |res.adaptive.globalObjects.tweets| > 0
  }

  /** What the channel carries: pages with tweets, and once the loop has
      ended, one last element that is an error or a page without tweets. */
  predicate Shaped(e: Engine)
  {
    if e.status == Closed then
      |e.out| > 0
      && (forall i :: 0 <= i < |e.out| - 1 ==> HasTweets(e.out[i]))
      && (e.out[|e.out| - 1].Failure? || |e.out[|e.out| - 1].adaptive.globalObjects.tweets| == 0)
    else
      forall i :: 0 <= i < |e.out| ==> HasTweets(e.out[i])
  }

  /** One request per search call, retries within the budget, and every
      activation followed by a search unless the loop stopped right there. */
  predicate Accounted(maxRetryAttempts: nat, e: Engine)
  {
    |e.requests| == e.searched
    && e.attempts <= maxRetryAttempts
    && e.activated <= e.searched + (if e.status == Running then 0 else 1)
  }

  /** A page with tweets keeps the channel open-shaped. */
  lemma TweetsAppended(out: seq<SearchResult>, x: SearchResult)
    requires forall i :: 0 <= i < |out| ==> HasTweets(out[i])
    requires HasTweets(x)
    ensures var o := out + [x]; forall i :: 0 <= i < |o| ==> HasTweets(o[i])
  {
  }

  /** An error or a page without tweets closes the channel in shape. */
  lemma FinalAppended(out: seq<SearchResult>, x: SearchResult)
    requires forall i :: 0 <= i < |out| ==> HasTweets(out[i])
    requires x.Failure? || |x.adaptive.globalObjects.tweets| == 0
    ensures var o := out + [x];
              |o| > 0
              && (forall i :: 0 <= i < |o| - 1 ==> HasTweets(o[i]))
              && (o[|o| - 1].Failure? || |o[|o| - 1].adaptive.globalObjects.tweets| == 0)
  {
  }

  /** One search call keeps the channel's shape and the bookkeeping. */
  lemma SearchKeepsInvariant(maxRetryAttempts: nat, opts: SearchOptions, net: Network, e: Engine)
    requires e.status == Running && Consumed(net, e)
    requires Shaped(e) && |e.requests| == e.searched && e.attempts <= maxRetryAttempts
    requires e.activated <= e.searched + 1
    ensures var r := Search(maxRetryAttempts, opts, net, e);
      Shaped(r) && Accounted(maxRetryAttempts, r)
      && e.out <= r.out && e.requests <= r.requests && e.attempts <= r.attempts
  {
    if e.searched < |net.searches| {
      match net.searches[e.searched]
      case FetchFailed(err) =>
        if err.Api? && maxRetryAttempts != 0 {
          if e.attempts >= maxRetryAttempts {
            FinalAppended(e.out, Failure(RetryLimitExceeded + ErrorText(err)));
          }
        } else {
          FinalAppended(e.out, Failure(SearchFailed + ErrorText(err)));
        }
      case Fetched(page) =>
        if |page.globalObjects.tweets| == 0 {
          FinalAppended(e.out, Page(page));
        } else {
          TweetsAppended(e.out, Page(page));
          match FindCursor(page)
          case Err(m) => FinalAppended(e.out + [Page(page)], Failure(CursorMissing + m));
          case Ok(c) =>
        }
    }
  }

  lemma StepKeepsInvariant(maxRetryAttempts: nat, opts: SearchOptions, net: Network, e: Engine)
    requires e.status == Running && Consumed(net, e)
    requires Shaped(e) && Accounted(maxRetryAttempts, e)
    ensures var r := Step(maxRetryAttempts, opts, net, e);
      Shaped(r) && Accounted(maxRetryAttempts, r)
      && e.out <= r.out && e.requests <= r.requests && e.attempts <= r.attempts
  {
    if e.guestToken != "" {
      SearchKeepsInvariant(maxRetryAttempts, opts, net, e);
    } else if e.activated < |net.activations| {
      match net.activations[e.activated]
      case ActivationFailed(err) =>
        FinalAppended(e.out, Failure(GuestTokenFailed + ErrorText(err)));
      case Activated(t) =>
        var e' := e.(activated := e.activated + 1, guestToken := t);
        assert Step(maxRetryAttempts, opts, net, e) == Search(maxRetryAttempts, opts, net, e');
        SearchKeepsInvariant(maxRetryAttempts, opts, net, e');
    }
  }

  /** The channel's shape and the bookkeeping hold when the loop ends; what
      was emitted and requested is never taken back. */
  lemma {:induction false} RunKeepsInvariant(maxRetryAttempts: nat, opts: SearchOptions, net: Network, e: Engine)
    requires Consumed(net, e) && Shaped(e) && Accounted(maxRetryAttempts, e)
    ensures var r := Run(maxRetryAttempts, opts, net, e);
      r.status != Running && Shaped(r) && Accounted(maxRetryAttempts, r)
      && e.out <= r.out && e.requests <= r.requests && e.attempts <= r.attempts
    decreases |net.searches| - e.searched, if e.status == Running then 1 else 0
  {
    if e.status == Running {
      var s := Step(maxRetryAttempts, opts, net, e);
      StepKeepsInvariant(maxRetryAttempts, opts, net, e);
      RunKeepsInvariant(maxRetryAttempts, opts, net, s);
    }
  }

  /** Every traversal: pages with tweets, then (if it ended rather than ran
      out of script) one error or one page without tweets; at most
      `maxRetryAttempts` retries, none at all when retrying is off. */
  lemma TraversalShape(maxRetryAttempts: nat, opts: SearchOptions, net: Network)
    ensures var r := Traverse(maxRetryAttempts, opts, net);
      Shaped(r) && Accounted(maxRetryAttempts, r) && r.status != Running
      && (maxRetryAttempts == 0 ==> r.attempts == 0)
  {
    RunKeepsInvariant(maxRetryAttempts, opts, net, Start(opts));
  }

  /** The loop continues only after a page with tweets whose cursor was
      found, or after a service error that is still within the retry budget,
      in which case the guest token is dropped and nothing is emitted. */
  lemma ContinuesOnlyOnPageOrRetry(maxRetryAttempts: nat, opts: SearchOptions, net: Network, e: Engine)
    requires e.status == Running && Consumed(net, e)
    requires Step(maxRetryAttempts, opts, net, e).status == Running
    ensures var r := Step(maxRetryAttempts, opts, net, e);
      var f := net.searches[e.searched];
      (f.Fetched? && |f.page.globalObjects.tweets| > 0 && FindCursor(f.page) == Ok(r.cursor)
        && r.out == e.out + [Page(f.page)] && r.attempts == e.attempts)
      || (f.FetchFailed? && f.error.Api? && maxRetryAttempts != 0 && e.attempts < maxRetryAttempts
        && r.attempts == e.attempts + 1 && r.guestToken == "" && r.out == e.out)
  {
  }

  /** A transport failure of a search is never retried: the loop ends with
      "failed to search" whatever the retry budget. */
  lemma TransportNotRetried(maxRetryAttempts: nat, opts: SearchOptions, net: Network, e: Engine, message: string)
    requires e.status == Running && Consumed(net, e) && e.guestToken != ""
    requires e.searched < |net.searches| && net.searches[e.searched] == FetchFailed(Transport(message))
    ensures var r := Run(maxRetryAttempts, opts, net, e);
      r.status == Closed && r.searched == e.searched + 1 && r.attempts == e.attempts
      && r.out == e.out + [Failure(SearchFailed + message)]
  {
    var s := Step(maxRetryAttempts, opts, net, e);
    assert s.status == Closed;
  }

  /** A failed activation ends the loop before any search is made. */
  lemma GuestTokenFailure(maxRetryAttempts: nat, opts: SearchOptions, net: Network, err: CallError)
    requires opts.guestToken == ""
    requires |net.activations| > 0 && net.activations[0] == ActivationFailed(err)
    ensures var r := Traverse(maxRetryAttempts, opts, net);
      r.status == Closed && r.activated == 1 && r.searched == 0 && r.requests == []
      && r.out == [Failure(GuestTokenFailed + ErrorText(err))]
  {
    var s := Step(maxRetryAttempts, opts, net, Start(opts));
    assert s.status == Closed;
    assert Run(maxRetryAttempts, opts, net, s) == s;
  }

  /** With retrying off, a service error ends the loop after one activation
      and one search. */
  lemma NoRetries(opts: SearchOptions, net: Network, token: string, response: ErrorResponse)
    requires opts.guestToken == ""
    requires |net.activations| > 0 && net.activations[0] == Activated(token)
    requires |net.searches| > 0 && net.searches[0] == FetchFailed(Api(response))
    ensures var r := Traverse(0, opts, net);
      r.status == Closed && r.activated == 1 && r.searched == 1
      && r.out == [Failure(SearchFailed + Rendered(response))]
  {
    var s := Step(0, opts, net, Start(opts));
    assert s.status == Closed;
    assert Run(0, opts, net, s) == s;
  }

  /** Every activation succeeds and every search is refused by the service. */
  predicate AlwaysRefused(net: Network)
  {
    (forall i :: 0 <= i < |net.activations| ==> net.activations[i].Activated?)
    && (forall i :: 0 <= i < |net.searches| ==> net.searches[i].FetchFailed? && net.searches[i].error.Api?)
  }

  lemma {:induction false} RefusedFrom(maxRetryAttempts: nat, opts: SearchOptions, net: Network, e: Engine)
    requires maxRetryAttempts != 0 && AlwaysRefused(net)
    requires |net.activations| > maxRetryAttempts && |net.searches| > maxRetryAttempts
    requires e.status == Running && e.guestToken == "" && e.out == []
    requires e.activated == e.attempts && e.searched == e.attempts && e.attempts <= maxRetryAttempts
    ensures var r := Run(maxRetryAttempts, opts, net, e);
      r.status == Closed && r.activated == maxRetryAttempts + 1 && r.searched == maxRetryAttempts + 1
      && r.out == [Failure(RetryLimitExceeded + ErrorText(net.searches[maxRetryAttempts].error))]
    decreases maxRetryAttempts - e.attempts
  {
    var s := Step(maxRetryAttempts, opts, net, e);
    if e.attempts < maxRetryAttempts {
      assert s.status == Running && s.guestToken == "" && s.attempts == e.attempts + 1;
      RefusedFrom(maxRetryAttempts, opts, net, s);
    } else {
      assert s.status == Closed;
    }
  }

  /** When the service keeps refusing, the loop activates and searches
      `maxRetryAttempts + 1` times, then reports the last error as
      "retry limit exceeded". */
  lemma RetryLimit(maxRetryAttempts: nat, opts: SearchOptions, net: Network)
    requires maxRetryAttempts != 0 && opts.guestToken == "" && AlwaysRefused(net)
    requires |net.activations| > maxRetryAttempts && |net.searches| > maxRetryAttempts
    ensures var r := Traverse(maxRetryAttempts, opts, net);
      r.status == Closed && r.activated == maxRetryAttempts + 1 && r.searched == maxRetryAttempts + 1
      && r.out == [Failure(RetryLimitExceeded + ErrorText(net.searches[maxRetryAttempts].error))]
  {
    RefusedFrom(maxRetryAttempts, opts, net, Start(opts));
  }

  /** The request the loop sends for the `i`-th page: the activated token,
      and the caller's cursor first, then the cursor of the page before. */
  function RequestFor(opts: SearchOptions, token: string, cursors: seq<string>, i: nat): SearchOptions
    requires i <= |cursors|
  {
    opts.(guestToken := token, cursor := if i == 0 then opts.cursor else cursors[i - 1])
  }

  /** The script of a paginated search: one activation, then pages with
      tweets whose cursors are `cursors`, then a page without tweets. */
  predicate Paginated(net: Network, token: string, pages: seq<Adaptive>, cursors: seq<string>)
  {
    |net.activations| > 0 && net.activations[0] == Activated(token) && token != ""
    && |pages| == |cursors| + 1 && |net.searches| >= |pages|
    && (forall i :: 0 <= i < |pages| ==> net.searches[i] == Fetched(pages[i]))
    && (forall i :: 0 <= i < |cursors| ==>
          |pages[i].globalObjects.tweets| > 0 && FindCursor(pages[i]) == Ok(cursors[i]))
    && |pages[|cursors|].globalObjects.tweets| == 0
  }

  /** The loop after `k` pages of a paginated search. */
  predicate PagedSoFar(opts: SearchOptions, token: string, pages: seq<Adaptive>, cursors: seq<string>, e: Engine)
    requires |pages| == |cursors| + 1
  {
    e.guestToken == token && e.attempts == 0 && e.activated == 1 && e.searched <= |pages|
    && |e.out| == e.searched && |e.requests| == e.searched
    && (forall i :: 0 <= i < e.searched ==> e.out[i] == Page(pages[i]))
    && (forall i :: 0 <= i < e.searched ==> e.requests[i] == RequestFor(opts, token, cursors, i))
  }

  /** One more page keeps the paginated record. */
  lemma PagedExtend(opts: SearchOptions, token: string, pages: seq<Adaptive>, cursors: seq<string>,
                    e: Engine, s: Engine)
    requires |pages| == |cursors| + 1
    requires PagedSoFar(opts, token, pages, cursors, e) && e.searched < |pages|
    requires s.guestToken == token && s.attempts == 0 && s.activated == 1 && s.searched == e.searched + 1
    requires s.out == e.out + [Page(pages[e.searched])]
    requires s.requests == e.requests + [RequestFor(opts, token, cursors, e.searched)]
    ensures PagedSoFar(opts, token, pages, cursors, s)
  {
  }

  /** One iteration that fetches a page with tweets and a cursor. */
  lemma PageStep(maxRetryAttempts: nat, opts: SearchOptions, net: Network, e: Engine, page: Adaptive, cursor: string)
    requires e.status == Running && Consumed(net, e) && e.guestToken != ""
    requires e.searched < |net.searches| && net.searches[e.searched] == Fetched(page)
    requires |page.globalObjects.tweets| > 0 && FindCursor(page) == Ok(cursor)
    ensures Step(maxRetryAttempts, opts, net, e)
         == e.(searched := e.searched + 1,
               requests := e.requests + [opts.(guestToken := e.guestToken, cursor := e.cursor)],
               out := e.out + [Page(page)],
               cursor := cursor)
  {
  }

  /** One iteration that fetches a page without tweets. */
  lemma LastPageStep(maxRetryAttempts: nat, opts: SearchOptions, net: Network, e: Engine, page: Adaptive)
    requires e.status == Running && Consumed(net, e) && e.guestToken != ""
    requires e.searched < |net.searches| && net.searches[e.searched] == Fetched(page)
    requires |page.globalObjects.tweets| == 0
    ensures Step(maxRetryAttempts, opts, net, e)
         == e.(searched := e.searched + 1,
               requests := e.requests + [opts.(guestToken := e.guestToken, cursor := e.cursor)],
               out := e.out + [Page(page)],
               status := Closed)
  {
  }

  /** Without a token, a failed activation ends the loop with the "failed to
      get guest token" error and no search, whatever came before. */
  lemma ActivationFailedStep(maxRetryAttempts: nat, opts: SearchOptions, net: Network, e: Engine, err: CallError)
    requires e.status == Running && Consumed(net, e) && e.guestToken == ""
    requires e.activated < |net.activations| && net.activations[e.activated] == ActivationFailed(err)
    ensures Step(maxRetryAttempts, opts, net, e)
         == e.(activated := e.activated + 1,
               out := e.out + [Failure(GuestTokenFailed + ErrorText(err))],
               status := Closed)
  {
  }

  /** Without a token, a successful activation installs the new token and
      the iteration goes on to search with it. */
  lemma ActivatedStep(maxRetryAttempts: nat, opts: SearchOptions, net: Network, e: Engine, token: string)
    requires e.status == Running && Consumed(net, e) && e.guestToken == ""
    requires e.activated < |net.activations| && net.activations[e.activated] == Activated(token)
    ensures Step(maxRetryAttempts, opts, net, e)
         == Search(maxRetryAttempts, opts, net, e.(activated := e.activated + 1, guestToken := token))
  {
  }

  /** With retrying off, a service error ends the loop with the "failed to
      search" error, whatever came before. */
  lemma NoRetryStep(opts: SearchOptions, net: Network, e: Engine, response: ErrorResponse)
    requires e.status == Running && Consumed(net, e) && e.guestToken != ""
    requires e.searched < |net.searches| && net.searches[e.searched] == FetchFailed(Api(response))
    ensures Step(0, opts, net, e)
         == e.(searched := e.searched + 1,
               requests := e.requests + [opts.(guestToken := e.guestToken, cursor := e.cursor)],
               out := e.out + [Failure(SearchFailed + Rendered(response))],
               status := Closed)
  {
  }

  /** A page with tweets but no bottom cursor is still emitted, then followed
      by the "failed to find cursor" error, and the loop stops. */
  lemma CursorMissingStep(maxRetryAttempts: nat, opts: SearchOptions, net: Network, e: Engine, page: Adaptive)
    requires e.status == Running && Consumed(net, e) && e.guestToken != ""
    requires e.searched < |net.searches| && net.searches[e.searched] == Fetched(page)
    requires |page.globalObjects.tweets| > 0 && FindCursor(page).Err?
    ensures Step(maxRetryAttempts, opts, net, e)
         == e.(searched := e.searched + 1,
               requests := e.requests + [opts.(guestToken := e.guestToken, cursor := e.cursor)],
               out := e.out + [Page(page), Failure(CursorMissing + CursorNotFound)],
               status := Closed)
  {
    assert FindCursor(page).message == CursorNotFound;
  }

  /** A service error within a non-zero budget is retried: the token is
      dropped, the counter goes up, nothing is emitted and the loop goes on. */
  lemma RetryStep(maxRetryAttempts: nat, opts: SearchOptions, net: Network, e: Engine, response: ErrorResponse)
    requires e.status == Running && Consumed(net, e) && e.guestToken != ""
    requires e.searched < |net.searches| && net.searches[e.searched] == FetchFailed(Api(response))
    requires maxRetryAttempts != 0 && e.attempts < maxRetryAttempts
    ensures Step(maxRetryAttempts, opts, net, e)
         == e.(searched := e.searched + 1,
               requests := e.requests + [opts.(guestToken := e.guestToken, cursor := e.cursor)],
               guestToken := "",
               attempts := e.attempts + 1)
  {
  }

  /** A service error once the budget is spent ends the loop with the
      "retry limit exceeded" error. */
  lemma RetryLimitStep(maxRetryAttempts: nat, opts: SearchOptions, net: Network, e: Engine, response: ErrorResponse)
    requires e.status == Running && Consumed(net, e) && e.guestToken != ""
    requires e.searched < |net.searches| && net.searches[e.searched] == FetchFailed(Api(response))
    requires maxRetryAttempts != 0 && e.attempts >= maxRetryAttempts
    ensures Step(maxRetryAttempts, opts, net, e)
         == e.(searched := e.searched + 1,
               requests := e.requests + [opts.(guestToken := e.guestToken, cursor := e.cursor)],
               out := e.out + [Failure(RetryLimitExceeded + Rendered(response))],
               status := Closed)
  {
  }

  lemma {:induction false} PagesFrom(maxRetryAttempts: nat, opts: SearchOptions, net: Network,
                                     token: string, pages: seq<Adaptive>, cursors: seq<string>, e: Engine)
    requires Paginated(net, token, pages, cursors)
    requires e.status == Running && PagedSoFar(opts, token, pages, cursors, e) && e.searched < |pages|
    requires e.cursor == RequestFor(opts, token, cursors, e.searched).cursor
    ensures var r := Run(maxRetryAttempts, opts, net, e);
      r.status == Closed && r.searched == |pages| && PagedSoFar(opts, token, pages, cursors, r)
    decreases |pages| - e.searched
  {
    var k := e.searched;
    assert net.searches[k] == Fetched(pages[k]);
    if k < |cursors| {
      assert |pages[k].globalObjects.tweets| > 0 && FindCursor(pages[k]) == Ok(cursors[k]);
      PageStep(maxRetryAttempts, opts, net, e, pages[k], cursors[k]);
      var s := Step(maxRetryAttempts, opts, net, e);
      PagedExtend(opts, token, pages, cursors, e, s);
      PagesFrom(maxRetryAttempts, opts, net, token, pages, cursors, s);
    } else {
      LastPageStep(maxRetryAttempts, opts, net, e, pages[k]);
      var s := Step(maxRetryAttempts, opts, net, e);
      PagedExtend(opts, token, pages, cursors, e, s);
      assert Run(maxRetryAttempts, opts, net, s) == s;
    }
  }

  /** A paginated search emits every page in order, ends after the page
      without tweets, activates once and reuses that token, and threads each
      page's cursor into the next request. */
  lemma Pagination(maxRetryAttempts: nat, opts: SearchOptions, net: Network,
                   token: string, pages: seq<Adaptive>, cursors: seq<string>)
    requires opts.guestToken == "" && Paginated(net, token, pages, cursors)
    ensures var r := Traverse(maxRetryAttempts, opts, net);
      r.status == Closed && r.activated == 1 && r.searched == |pages|
      && |r.out| == |pages| && (forall i :: 0 <= i < |pages| ==> r.out[i] == Page(pages[i]))
      && |r.requests| == |pages|
      && (forall i :: 0 <= i < |pages| ==> r.requests[i] == RequestFor(opts, token, cursors, i))
  {
    var activated := Engine(opts.cursor, token, 0, 1, 0, [], [], Running);
    assert Step(maxRetryAttempts, opts, net, Start(opts)) == Step(maxRetryAttempts, opts, net, activated);
    PagesFrom(maxRetryAttempts, opts, net, token, pages, cursors, activated);
  }
}
