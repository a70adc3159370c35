/** The search client (`api/search.go`): the query parameters of one search
    request, and the pagination/retry loop that drives guest-token activation,
    page fetches and cursor threading. The network is a script: the outcomes of
    the successive activation calls and of the successive search calls, in
    the order the loop issues them. The result channel is the sequence of
    emitted results plus how the loop ended. */
module ApiSearch {
  import opened Results
  import opened ApiJson
  import ApiErrors
  import TwitterQuery

  datatype SearchOptions = SearchOptions(
    guestToken: string,
    cursor: string,
    query: TwitterQuery.Query,
    top: bool)

  /** The query parameters present on every search request. */
  const FixedKeys: set<string> :=
    {"q", "include_quote_count", "include_reply_count", "tweet_mode", "count", "query_source"}

  /** `(*Client).Search`, lines building the query parameters: the fixed
      parameters, the cursor only when one is set, and the live ordering mode
      unless top results were asked for. */
  method SearchParams(opts: SearchOptions) returns (params: map<string, string>)
    ensures params.Keys == FixedKeys
      + (if |opts.cursor| != 0 then {"cursor"} else {})
      + (if !opts.top then {"tweet_search_mode"} else {})
    ensures params["q"] == TwitterQuery.Encoded(opts.query)
    ensures params["include_quote_count"] == "true" && params["include_reply_count"] == "1"
    ensures params["tweet_mode"] == "extended" && params["count"] == "40"
    ensures params["query_source"] == "typed_query"
    ensures "cursor" in params ==> params["cursor"] == opts.cursor
    ensures "tweet_search_mode" in params ==> params["tweet_search_mode"] == "live"
  {
    var q := TwitterQuery.Encode(opts.query);
    params := map[
      "q" := q,
      "include_quote_count" := "true",
      "include_reply_count" := "1",
      "tweet_mode" := "extended",
      "count" := "40",
      "query_source" := "typed_query"
    ];
    if |opts.cursor| != 0 {
      params := params["cursor" := opts.cursor];
    }
    if !opts.top {
      params := params["tweet_search_mode" := "live"];
    }
  }

  /** Why a call failed: a transport-level failure (connection, decoding), or
      the service's own error response. Only the latter is retried. */
  datatype CallError = Transport(message: string) | Api(response: ApiErrors.ErrorResponse)

  /** The error string of a failed call. */
  function ErrorText(e: CallError): string
  {
    match e
    case Transport(m) => m
    case Api(r) => ApiErrors.Rendered(r)
  }

  /** Outcome of one guest-token activation call. */
  datatype Activation = Activated(token: string) | ActivationFailed(error: CallError)

  /** Outcome of one search call. */
  datatype Fetch = Fetched(page: Adaptive) | FetchFailed(error: CallError)

  /** The scripted network: successive activation and search outcomes. */
  datatype Network = Network(activations: seq<Activation>, searches: seq<Fetch>)

  /** One element of the result channel: a page, or a terminal error. */
  datatype SearchResult = Page(adaptive: Adaptive) | Failure(message: string)

  /** How the loop stands: still looping; ended (the channel is closed); or
      stopped because the script has no outcome for the next call, where the
      real loop would go on calling the network. */
  datatype Status = Running | Closed | Stalled

  /** The loop's variables (`cursor`, `guestToken`, `attempts`), how much of
      the script it has consumed, the search requests it issued, what it has
      emitted, and its status. */
  datatype Engine = Engine(
    cursor: string,
    guestToken: string,
    attempts: nat,
    activated: nat,
    searched: nat,
    requests: seq<SearchOptions>,
    out: seq<SearchResult>,
    status: Status)

  const GuestTokenFailed := "failed to get guest token: "
  const RetryLimitExceeded := "retry limit exceeded: "
  const SearchFailed := "failed to search: "
  const CursorMissing := "failed to find cursor: "

  /** The state before the first iteration. */
  function Start(opts: SearchOptions): Engine
  {
    Engine(opts.cursor, opts.guestToken, 0, 0, 0, [], [], Running)
  }

  /** The script positions the engine has consumed exist. */
  predicate Consumed(net: Network, e: Engine)
  {
    e.activated <= |net.activations| && e.searched <= |net.searches|
  }

  /** The search half of one iteration: issue the request, then classify the
      outcome. */
  function Search(maxRetryAttempts: nat, opts: SearchOptions, net: Network, e: Engine): (r: Engine)
    requires e.status == Running && Consumed(net, e)
    ensures Consumed(net, r) && r.activated == e.activated
    ensures r.status == Running ==> r.searched == e.searched + 1
    ensures r.status == Stalled ==> r == e.(status := Stalled)
  {
    if e.searched == |net.searches| then e.(status := Stalled)
    else
      var request := opts.(guestToken := e.guestToken, cursor := e.cursor);
      var e1 := e.(searched := e.searched + 1, requests := e.requests + [request]);
      match net.searches[e.searched]
      case FetchFailed(err) =>
        if err.Api? && maxRetryAttempts != 0 then
          if e.attempts >= maxRetryAttempts then
            e1.(out := e.out + [Failure(RetryLimitExceeded + ErrorText(err))], status := Closed)
          else
            e1.(guestToken := "", attempts := e.attempts + 1)
        else
          e1.(out := e.out + [Failure(SearchFailed + ErrorText(err))], status := Closed)
      case Fetched(page) =>
        var e2 := e1.(out := e.out + [Page(page)]);
        if |page.globalObjects.tweets| == 0 then e2.(status := Closed)
        else match FindCursor(page)
          case Err(m) => e2.(out := e2.out + [Failure(CursorMissing + m)], status := Closed)
          case Ok(c) => e2.(cursor := c)
  }

  /** One iteration of the loop: activate a guest token if there is none,
      then search. */
  function Step(maxRetryAttempts: nat, opts: SearchOptions, net: Network, e: Engine): (r: Engine)
    requires e.status == Running && Consumed(net, e)
    ensures Consumed(net, r) && r.searched >= e.searched && r.activated >= e.activated
    ensures r.status == Running ==> r.searched == e.searched + 1
  {
    if e.guestToken == "" then
      if e.activated == |net.activations| then e.(status := Stalled)
      else match net.activations[e.activated]
        case ActivationFailed(err) =>
          e.(activated := e.activated + 1,
             out := e.out + [Failure(GuestTokenFailed + ErrorText(err))],
             status := Closed)
        case Activated(t) =>
          Search(maxRetryAttempts, opts, net, e.(activated := e.activated + 1, guestToken := t))
    else Search(maxRetryAttempts, opts, net, e)
  }

  /** The loop run to its end (closed, or out of script). */
  function Run(maxRetryAttempts: nat, opts: SearchOptions, net: Network, e: Engine): (r: Engine)
    requires Consumed(net, e)
    ensures Consumed(net, r)
    decreases |net.searches| - e.searched, if e.status == Running then 1 else 0
  {
    if e.status != Running then e
    else Run(maxRetryAttempts, opts, net, Step(maxRetryAttempts, opts, net, e))
  }

  /** The whole traversal of `SearchAll`. */
  function Traverse(maxRetryAttempts: nat, opts: SearchOptions, net: Network): Engine
  {
    Run(maxRetryAttempts, opts, net, Start(opts))
  }

  /** `(*Client).SearchAll`, the loop of its producer goroutine, with the
      client's `MaxRetryAttempts` as a parameter. */
  method SearchAll(maxRetryAttempts: nat, opts: SearchOptions, net: Network) returns (final: Engine)
    ensures final == Traverse(maxRetryAttempts, opts, net)
    ensures final.status != Running
  {
    var cursor := opts.cursor;
    var guestToken := opts.guestToken;
    var attempts: nat := 0;
    var activated, searched := 0, 0;
    var requests: seq<SearchOptions> := [];
    var out: seq<SearchResult> := [];
    var status := Running;
    while true
      invariant activated <= |net.activations| && searched <= |net.searches|
      invariant Run(maxRetryAttempts, opts, net,
                    Engine(cursor, guestToken, attempts, activated, searched, requests, out, Running))
             == Traverse(maxRetryAttempts, opts, net)
      decreases |net.searches| - searched
    {
      ghost var before := Engine(cursor, guestToken, attempts, activated, searched, requests, out, Running);
      ghost var after := Step(maxRetryAttempts, opts, net, before);
      if guestToken == "" {
        if activated == |net.activations| {
          status := Stalled;
          assert Engine(cursor, guestToken, attempts, activated, searched, requests, out, status) == after;
          break;
        }
        var activation := net.activations[activated];
        activated := activated + 1;
        if activation.ActivationFailed? {
          out := out + [Failure(GuestTokenFailed + ErrorText(activation.error))];
          status := Closed;
          assert Engine(cursor, guestToken, attempts, activated, searched, requests, out, status) == after;
          break;
        }
        guestToken := activation.token;
      }
      ghost var activatedState := Engine(cursor, guestToken, attempts, activated, searched, requests, out, Running);
      assert after == Search(maxRetryAttempts, opts, net, activatedState);

      if searched == |net.searches| {
        status := Stalled;
        assert Engine(cursor, guestToken, attempts, activated, searched, requests, out, status) == after;
        break;
      }
      var fetch := net.searches[searched];
      searched := searched + 1;
      requests := requests + [opts.(guestToken := guestToken, cursor := cursor)];

      if fetch.FetchFailed? {
        var err := fetch.error;
        if err.Api? && maxRetryAttempts != 0 {
          if attempts >= maxRetryAttempts {
            out := out + [Failure(RetryLimitExceeded + ErrorText(err))];
            status := Closed;
            assert Engine(cursor, guestToken, attempts, activated, searched, requests, out, status) == after;
            break;
          }
          guestToken := "";
          attempts := attempts + 1;
          assert Engine(cursor, guestToken, attempts, activated, searched, requests, out, Running) == after;
          continue;
        } else {
          out := out + [Failure(SearchFailed + ErrorText(err))];
          status := Closed;
          assert Engine(cursor, guestToken, attempts, activated, searched, requests, out, status) == after;
          break;
        }
      }

      var res := fetch.page;
      out := out + [Page(res)];
      if |res.globalObjects.tweets| == 0 {
        status := Closed;
        assert Engine(cursor, guestToken, attempts, activated, searched, requests, out, status) == after;
        break;
      }

      var next := FindCursor(res);
      if next.Err? {
        out := out + [Failure(CursorMissing + next.message)];
        status := Closed;
        assert Engine(cursor, guestToken, attempts, activated, searched, requests, out, status) == after;
        break;
      }
      cursor := next.value;
      assert Engine(cursor, guestToken, attempts, activated, searched, requests, out, Running) == after;
    }
    final := Engine(cursor, guestToken, attempts, activated, searched, requests, out, status);
  }
}
