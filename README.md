# squawks search pipeline, modelled in Dafny

squawks is a command-line scraper for Twitter's adaptive search. It pages
through search results with a guest token, retrying refused requests with a
fresh token. It projects each page's timeline into tweet records, encodes
search queries as query strings, renders the service's error responses, and
validates repeatable enum flags on the command line. This project models
that pipeline and proves what each piece promises.

Each module follows one Go file:

| module | file | form |
|---|---|---|
| `ApiSearch` | `api/search.go` | `SearchParams` and the `SearchAll` loop as methods. `SearchAll` is proved equal to `Traverse`, which iterates the one-step function `Step` |
| `ApiSearchProperties`, `ApiSearchExamples` | `api/search.go` | lemmas over every traversal, and the client's test table |
| `ApiJson`, `ApiJsonExamples` | `api/json/adaptive.go` | the timeline datatypes and `FindCursor` as a first-match search |
| `TwitterAdaptive` | `twitter/adaptive_json.go` | the older copy of `FindCursor`, proved equal to the current one. The older page type is kept only as far as the cursor lookup needs: its `GlobalObjects` part is left out |
| `ExportRecord` | `export/record.go` | `ReverseSortedTweetIds`, with an in-place insertion sort on an array, and `NewRecordsFromAdaptive` |
| `ExportHelper` | `export/helper.go` | `Filter` and `Map` as loops, specified by `Kept` and by indexwise application |
| `TwitterQuery` | `twitter/query.go` | `Encode` builds the token list step by step; `IsEmpty` |
| `ApiErrors` | `api/json/error.go` | `ErrorString` accumulates lines, then trims trailing newlines |
| `FlagsValidation` | `cmd/flags/validation.go` | a class whose `Set` appends a validated record in place |
| `FlagsEnum`, `FlagsExamples` | `cmd/flags/enum.go` | the enum validator, flag registration, and the enum test table |
| `FlagsHelper` | `cmd/flags/helper.go` | `All`, `Any`, `Includes` |
| `Text`, `Results` | — | stand-ins for `strings.Join`, `HasPrefix`, `TrimRight`, decimal formatting and Go's `<` on strings; `Option` and `Result` |

The network is a script: the outcomes of successive guest-token activations
and of successive searches. An error is a transport failure or the service's
own error response, and only the latter is retried. The result channel is the
sequence of emitted results together with a status: still running, closed,
or stalled. Stalled means the script ran out, where the real loop would keep
calling the network.

## Model

| member | source | states |
|---|---|---|
| ApiSearch.SearchParams | api/search.go:31-46 | the six fixed parameters, with `q` the encoded query; `cursor` present iff the cursor is non-empty and then equal to it; `tweet_search_mode` = "live" present iff top results were not asked for |
| ApiSearch.SearchAll | api/search.go:77-123 | the loop's final state (emitted results, issued requests, counters, token, cursor) equals `Traverse`, the iteration of the one-step function, and the loop has stopped |
| ApiSearch.Step | api/search.go:81-123 | one iteration never un-consumes the script (neither activations nor searches); if it continues, it made exactly one more search call |
| ApiSearch.Search | api/search.go:92-123 | the search half of an iteration consumes one search outcome when it continues, and changes nothing but the status when none is left |
| ApiSearch.Run | api/search.go:81-124 | iterating the loop stays within the script |
| ApiSearchProperties.RunKeepsInvariant | api/search.go:81-123 | from any well-formed state, the loop ends with the channel well-formed: pages with tweets, then one error or one page without tweets. It also ends with one request per search, retries within the budget, and every activation except possibly the last followed by a search. Output, requests and the retry counter only grow |
| ApiSearchProperties.SearchKeepsInvariant | api/search.go:96-123 | one search call keeps the channel's shape and the bookkeeping: a retry or a page with a cursor keeps the channel open, and an error or a page without tweets closes it as its last element |
| ApiSearchProperties.StepKeepsInvariant | api/search.go:81-123 | one iteration keeps the channel's shape and the bookkeeping, and only appends |
| ApiSearchProperties.TraversalShape | api/search.go:77-123 | every traversal is well-formed, and with retrying off no retry ever happens |
| ApiSearchProperties.ContinuesOnlyOnPageOrRetry | api/search.go:96-123 | the loop goes on only after a page with tweets whose cursor was found, which becomes the new cursor with the retry counter unchanged, or after a service error within the budget, which emits nothing, drops the token and counts one retry |
| ApiSearchProperties.TransportNotRetried | api/search.go:96-111 | a transport failure ends the loop with "failed to search: " and the error text, whatever the budget |
| ApiSearchProperties.GuestTokenFailure | api/search.go:82-87 | a failed activation emits "failed to get guest token: " and the error text, and no search is made |
| ApiSearchProperties.NoRetries | api/search.go:99-110 | with a budget of 0 a service error ends the loop after one activation and one search with "failed to search: " and the rendered error |
| ApiSearchProperties.RetryLimit | api/search.go:99-107 | when every search is refused, the loop makes `max + 1` activations and `max + 1` searches and emits only "retry limit exceeded: " with the last error |
| ApiSearchProperties.RefusedFrom | api/search.go:99-107 | the same from any point of the retry sequence |
| ApiSearchProperties.Pagination | api/search.go:92-123 | pages with tweets followed by a page without tweets are emitted in order. The loop activates once and reuses that token. The first request carries the caller's cursor and each later one the cursor of the page before |
| ApiSearchProperties.PagesFrom | api/search.go:92-123 | the same from any page of the run |
| ApiSearchProperties.PageStep | api/search.go:114-123 | a page with tweets and a cursor is emitted, the cursor advances, and the retry counter is not reset |
| ApiSearchProperties.ActivationFailedStep | api/search.go:82-88 | from any running state without a token, a failed activation emits "failed to get guest token: " with the error and stops, with no search and no retry |
| ApiSearchProperties.ActivatedStep | api/search.go:82-91 | from any running state without a token, a successful activation installs the new token and the iteration searches with it |
| ApiSearchProperties.NoRetryStep | api/search.go:96-110 | with retrying off, a service error from any running state emits "failed to search: " with the rendered error and stops |
| ApiSearchProperties.CursorMissingStep | api/search.go:114-122 | a page with tweets but no bottom cursor is emitted, followed by "failed to find cursor: cursor not found", and the loop stops |
| ApiSearchProperties.RetryStep | api/search.go:96-107 | a service error within a non-zero budget drops the token, counts one attempt, emits nothing and keeps the loop running |
| ApiSearchProperties.RetryLimitStep | api/search.go:96-103 | a service error once the non-zero budget is spent emits "retry limit exceeded: " with the rendered error and stops |
| ApiSearchProperties.LastPageStep | api/search.go:114-117 | a page without tweets is emitted and closes the channel |
| ApiSearchProperties.PagedExtend | api/search.go:92-94 | one more page extends the page-by-page record of requests and results |
| ApiSearchExamples.RetryLimitExceededExample | api/search_test.go:141-153 | budget 3, always refused: 4 activations, 4 searches, "retry limit exceeded: 200: forbidden" |
| ApiSearchExamples.NoRetriesExample | api/search_test.go:154-166 | budget 0: one activation, one search, "failed to search: 200: forbidden" |
| ApiSearchExamples.GuestTokenFailureExample | api/search_test.go:128-140 | "failed to get guest token: 200: forbidden" and no search |
| ApiSearchExamples.EmptyTweetsExample | api/search_test.go:115-127 | a first page without tweets is emitted and ends the run |
| ApiSearchExamples.RestTweetsExample | api/search_test.go:232-350 | two pages, one activation, and the second request carries "scroll:deadbeef" |
| ApiSearchExamples.FirstPageCursor | api/search_test.go:242-266 | the first page of that test yields the cursor "scroll:deadbeef" |
| ApiJson.FindInEntries | api/json/adaptive.go:89-93 | no value iff no entry has the bottom-cursor id; otherwise the value of the first such entry |
| ApiJson.FindCursorIn | api/json/adaptive.go:84-96 | an error ("cursor not found") iff no instruction carries the sentinel. Otherwise the first carrying instruction decides: its replace entry when that replaces the bottom cursor, else its first bottom-cursor add entry |
| ApiJson.FindCursor | api/json/adaptive.go:83-97 | an error iff no instruction of the timeline carries the sentinel |
| ApiJson.FoundCursorComesFromSentinel | api/json/adaptive.go:85-92 | a found cursor is the value of an entry tied to the sentinel id, possibly "" |
| ApiJson.FirstCarrierExists | api/json/adaptive.go:84-94 | if any instruction carries the sentinel, a first one does |
| ApiJson.FirstBottomEntryExists | api/json/adaptive.go:89-93 | if any entry has the sentinel id, a first one does |
| ApiJsonExamples.ReplaceEntryExample | api/json/adaptive_test.go:50-74 | a top-cursor replacement is skipped and the later bottom replacement gives "scroll:foobar" |
| ApiJsonExamples.AddEntriesExample | api/json/adaptive_test.go:76-96 | among add entries the top cursor is skipped and the bottom one gives "scroll:foobar" |
| ApiJsonExamples.NoCursorExample | api/json/adaptive_test.go:98-103 | an empty timeline gives "cursor not found" |
| TwitterAdaptive.FindInEntries | twitter/adaptive_json.go:130-134 | no value iff no entry has the bottom-cursor id |
| TwitterAdaptive.FindCursorIn | twitter/adaptive_json.go:125-137 | "cursor not found" iff no instruction carries the sentinel |
| TwitterAdaptive.FindCursor | twitter/adaptive_json.go:124-138 | an error iff no instruction of the timeline carries the sentinel |
| TwitterAdaptive.FindInEntriesAgrees | twitter/adaptive_json.go:130-134 | the older entry scan agrees with the current one on corresponding entries |
| TwitterAdaptive.FindCursorAgrees | twitter/adaptive_json.go:124-138 | the older `FindCursor` gives the same result as the current one on corresponding instructions. The correspondence is the proof helper `UpgradeInstructions`, built from `UpgradeEntries`, which gives each older entry an empty item |
| ExportRecord.ReverseSortedTweetIds | export/record.go:40-59 | the ids are those of an arrangement of the kept entries of the first instruction that is a permutation and non-increasing in sort index. There is one id per kept entry, and none without instructions |
| ExportRecord.SortDescending | export/record.go:52-54 | the array ends non-increasing in sort index and is a permutation of what it held |
| ExportRecord.CandidatesIff | export/record.go:46-50 | an entry is a candidate iff there is a first instruction, the entry is among its add entries, its id starts with "sq-I-t-", its tweet id is non-empty and its display type is "Tweet". The helper `IsTweetEntry` is the filter's predicate |
| ExportRecord.SwapStep | export/record.go:52-54 | swapping a smaller entry past its neighbour keeps the sort's invariant |
| ExportRecord.InsertDone | export/record.go:52-54 | an entry no smaller than the one after it completes a sorted prefix |
| ExportRecord.LessAsymmetric | export/record.go:53 | string order is asymmetric |
| ExportRecord.RecordOf | export/record.go:62-84 | id, text, counts, lang and source are copied from the tweet (a zero tweet when absent). The username is the screen name of the user keyed by the decimal user id, "" when absent. The geo is absent iff the tweet's is, and otherwise is its coordinates |
| ExportRecord.NewRecordsFromAdaptive | export/record.go:61-85 | one record per entry of a sorted arrangement of the kept entries, in that order |
| ExportHelper.Filter | export/helper.go:17-27 | the kept elements in order (`Kept`), each satisfying the predicate, no more than the input |
| ExportHelper.KeptMembers | export/helper.go:17-27 | an element is kept iff it is in the input and satisfies the predicate |
| ExportHelper.KeptAppend | export/helper.go:20-24 | filtering distributes over concatenation, so relative order is kept |
| ExportHelper.KeptCount | export/helper.go:17-27 | each element satisfying the predicate is kept exactly as often as it occurs; no other element is kept |
| ExportHelper.Map | export/helper.go:29-36 | same length, and element `k` is the function applied to input `k` |
| TwitterQuery.AppendEach | twitter/query.go:61-67 | appends one `prefix+v` token per list element, in order, empty elements included |
| TwitterQuery.Encode | twitter/query.go:34-78 | the result is `Encoded`: the tokens in fixed order joined by single spaces |
| TwitterQuery.AppendIfPresent | twitter/query.go:37-59 | a field contributes its prefixed token iff it is non-empty. The helper `Optional` is that zero-or-one token list |
| TwitterQuery.Each | twitter/query.go:61-67 | one prefixed token per list element, in order, even for "" |
| TwitterQuery.TokensNonEmpty | twitter/query.go:37-75 | every emitted token is non-empty |
| TwitterQuery.TokensEmptyIff | twitter/query.go:37-75 | no tokens iff every field and both lists are empty |
| TwitterQuery.EncodedEmptyIff | twitter/query.go:34-78 | the encoding is "" iff every field and both lists are empty |
| TwitterQuery.TokenCount | twitter/query.go:37-75 | the number of tokens is the number of non-empty fields plus the list lengths. Each `Optional` contributes zero or one token |
| TwitterQuery.IsEmpty | twitter/query.go:80-82 | true iff the encoding is "", iff every field and both lists are empty |
| TwitterQuery.FullQueryExample | twitter/query.go:34-78 | a query with every field set gives the tokens in the documented order |
| TwitterQuery.EmptyQueryExample | twitter/query.go:34-78 | the empty query encodes to "" |
| ApiErrors.ErrorString | api/json/error.go:31-38 | the accumulated and trimmed message equals `Rendered` |
| ApiErrors.Rendered | api/json/error.go:31-38 | never ends in a newline; no errors give "" |
| ApiErrors.RenderedIsJoinedLines | api/json/error.go:33-37 | when the last message does not end in a newline, the rendering is the "code: message" lines in order, joined by newlines |
| ApiErrors.LineEnd | api/json/error.go:34 | a `code: message` line is never empty, and it ends in a newline only when its message does |
| ApiErrors.AccumulatedIsJoin | api/json/error.go:33-35 | the accumulated text is the joined lines plus one newline |
| ApiErrors.TwoErrorsExample | api/json/error_test.go:26-36 | two errors give "200: forbidden\n400: something went wrong" |
| ApiErrors.ForbiddenExample | api/search_test.go:146-148 | one error gives "200: forbidden" |
| FlagsValidation.StringSliceValueWithValidation.constructor | cmd/flags/validation.go:24-28 | registration leaves the flag holding the defaults |
| FlagsValidation.StringSliceValueWithValidation.Set | cmd/flags/validation.go:35-53 | "" is ignored. A record that fails to read, or that the validator refuses, returns the error and leaves the values unchanged. Otherwise the record is appended whole. The values stay the defaults followed by accepted records |
| FlagsValidation.StringSliceValueWithValidation.String | cmd/flags/validation.go:35-58 | for a flag kept valid by the constructor and `Set`, the text is "[", then the defaults followed by every accepted record in the order they were set, joined by the bar character, then "]". The helper `Text.Bracketed` does the formatting |
| FlagsEnum.Check | cmd/flags/enum.go:26-32 | accepts iff every value is one of the options; a refusal reads "valid values are " + the bracketed options. The helper `Text.Bracketed` formats them as "[a|b]" |
| FlagsEnum.EmptyAccepted | cmd/flags/enum.go:27 | the empty list is always accepted |
| FlagsEnum.OnlyOptionsAdded | cmd/flags/enum.go:26-34 | whatever `Set` calls an enum flag has seen, every value beyond the defaults is an option |
| FlagsEnum.AcceptedAreOptions | cmd/flags/enum.go:26-32 | records that each passed the validator contain only options |
| FlagsEnum.StringSliceEnumVarP | cmd/flags/enum.go:24-35 | a fresh flag holding the defaults, validated by the enum check, with usage text ending in " " + the options as `Text.Bracketed` formats them |
| FlagsExamples.InvalidMultipleFlags | cmd/flags/enum_test.go:58-62 | "foo" then "bar": the flag holds ["foo"], and the second occurrence is refused with "valid values are " + the bracketed options "foo" and "foobar" |
| FlagsExamples.InvalidMultipleValues | cmd/flags/enum_test.go:68-72 | "foo,bar" is refused whole and nothing is added |
| FlagsExamples.ValidMultipleValues | cmd/flags/enum_test.go:63-67 | "foo,foobar" is appended whole and shown as the bracketed pair "foo", "foobar" |
| FlagsExamples.EmptyOccurrence | cmd/flags/enum_test.go:38-42 | an empty occurrence adds nothing and is no error |
| FlagsExamples.Fields | cmd/flags/validation.go:40-41 | splitting an unquoted record at commas gives comma-free fields that join back to the text |
| FlagsHelper.All | cmd/flags/helper.go:17-25 | true iff every element satisfies the predicate |
| FlagsHelper.Any | cmd/flags/helper.go:27-35 | true iff some element satisfies the predicate |
| FlagsHelper.Includes | cmd/flags/helper.go:37-39 | true iff the value is an element |
| FlagsHelper.AllIsNotAnyNot | cmd/flags/helper.go:17-35 | `All` is the negation of `Any` of the negated predicate |
| Text.NatToDecimal | export/record.go:64 | `strconv.FormatUint(n, 10)`: a non-empty string of decimal digits that denotes n, with no leading zero unless it is "0" |
| Text.TrimRightNewlines | api/json/error.go:37 | a prefix of the input that does not end in a newline, with only newlines removed |
| Text.JoinSnoc | api/json/error.go:33-37 | joining one more line appends the separator and the line |
| Text.LessTransitive | export/record.go:53 | string order is transitive |
| Text.LessTotal | export/record.go:53 | any two distinct strings are ordered |
| Text.LessIrreflexive | export/record.go:53 | no string is before itself |
| Text.AtLeastTransitive | export/record.go:53 | "not before" is transitive, which the descending sort relies on |

## Left out

- HTTP and JSON decoding are not modelled. This covers the resty request in api/search.go:48-63 and guest-token activation. Each call's outcome comes from the script instead.
- The goroutine and channel wrapper (api/search.go:72-75) is not modelled. The channel is the output sequence, and closing it is the status `Closed`.
- ApiSearch.SearchAll: the live loop calls the network without bound. The model stops with status `Stalled` when the script has no outcome for the next call, so it describes every finite prefix of a run rather than a run that never ends.
- ApiSearch.SearchParams: `q` uses the `Query` of twitter/query.go. api/query.go is not part of this model; its tests show `include:`, `near:` and `within:` tokens that the modelled `Query` does not have.
- ApiSearch.SearchAll: only the error's kind is inspected (service error or not), as in the source; error codes are not.
- ExportRecord.ReverseSortedTweetIds: `sort.Slice` is not stable. The contract says the ids follow some non-increasing permutation of the kept entries; it does not say which order ties take.
- export/record.go imports a `twitter/json` package whose `Adaptive` is not part of this model. The `api/json` datatypes, which have the same fields, stand in. The record's geo is the `LatLong` of twitter/json/location.go.
- Floating point is not interpreted. Coordinates are `real` pairs copied unchanged, and `FormatFloat` rendering is not modelled.
- Times are opaque. `RubyDate` parsing and ISO 8601 formatting are not modelled, so the record has no created-at rendering.
- Tweet `Coordinates` and `Place`, and user fields the projection never reads, are omitted from the datatypes.
- FlagsValidation.StringSliceValueWithValidation.Set: `encoding/csv` is a parameter, a function that may fail. The test scenarios use `Fields`, a plain comma splitter, which is enough for their unquoted input.
- The flag registers with pflag (`flags.VarPF`). This is not modelled, so pflag's "invalid argument" prefix on error messages is absent.
- The Go flag value points at the caller's slice. In the model the class owns the list, so no aliasing is modelled.
- `StringSliceValueWithValidation.Type` is modelled as the constant "stringSlice". It states nothing beyond its body.
- The retry counter `attempts` is never reset, not even after a successful page. The model follows the code in this.
- export/csv.go, cmd/search/tweets.go, cmd/root.go and twitter/client.go are not part of this model.
