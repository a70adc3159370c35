/** The search-query encoder (`twitter/query.go`): the structured filters of a
    search, rendered as the space-separated query string the service expects. */
module TwitterQuery {
  import opened Text

  datatype Query = Query(
    text: string,
    since: string,
    until: string,
    from: string,
    to: string,
    lang: string,
    filters: seq<string>,
    excludes: seq<string>,
    geocode: string,
    url: string)

  /** The token a single-valued field contributes: none when it is empty. */
  function Optional(prefix: string, v: string): seq<string>
  {
    if |v| != 0 then [prefix + v] else []
  }

  /** One token per element, in order, even for an empty element. */
  function Each(prefix: string, vs: seq<string>): (r: seq<string>)
    ensures |r| == |vs| && forall k :: 0 <= k < |vs| ==> r[k] == prefix + vs[k]
  {
    if |vs| == 0 then [] else Each(prefix, vs[..|vs| - 1]) + [prefix + vs[|vs| - 1]]
  }

  /** The tokens of the text, date, author and language fields, in that order. */
  function LeadingTokens(q: Query): seq<string>
  {
    Optional("", q.text) + Optional("since:", q.since) + Optional("until:", q.until) +
    Optional("from:", q.from) + Optional("to:", q.to) + Optional("lang:", q.lang)
  }

  /** The tokens of the geocode and url fields, in that order. */
  function TrailingTokens(q: Query): seq<string>
  {
    Optional("geocode:", q.geocode) + Optional("url:", q.url)
  }

  /** The tokens of a query, in the fixed field order. */
  function Tokens(q: Query): seq<string>
  {
    LeadingTokens(q) + Each("filter:", q.filters) + Each("exclude:", q.excludes) + TrailingTokens(q)
  }

  /** The encoded query: the tokens separated by single spaces. */
  function Encoded(q: Query): string
  {
    Join(Tokens(q), " ")
  }

  /** No field, filled or not, contributes an empty token. */
  lemma TokensNonEmpty(q: Query)
    ensures forall k :: 0 <= k < |Tokens(q)| ==> Tokens(q)[k] != ""
  {
    forall k | 0 <= k < |Tokens(q)| ensures Tokens(q)[k] != "" {
      var t := Tokens(q)[k];
      assert t in Tokens(q);
    }
  }

  /** A query has no tokens exactly when every string field is empty and both
      lists are empty. */
  lemma TokensEmptyIff(q: Query)
    ensures Tokens(q) == [] <==>
      q.text == "" && q.since == "" && q.until == "" && q.from == "" && q.to == "" &&
      q.lang == "" && q.filters == [] && q.excludes == [] && q.geocode == "" && q.url == ""
  {
  }

  /** Encoding gives "" iff every field is empty. */
  lemma EncodedEmptyIff(q: Query)
    ensures Encoded(q) == "" <==>
      q.text == "" && q.since == "" && q.until == "" && q.from == "" && q.to == "" &&
      q.lang == "" && q.filters == [] && q.excludes == [] && q.geocode == "" && q.url == ""
  {
    TokensNonEmpty(q);
    JoinEmptyIff(Tokens(q), " ");
    TokensEmptyIff(q);
  }

  /** The number of tokens: one per non-empty string field and one per list
      element. */
  lemma TokenCount(q: Query)
    ensures |Tokens(q)| ==
      |Optional("", q.text)| + |Optional("", q.since)| + |Optional("", q.until)| +
      |Optional("", q.from)| + |Optional("", q.to)| + |Optional("", q.lang)| +
      |q.filters| + |q.excludes| + |Optional("", q.geocode)| + |Optional("", q.url)|
  {
  }

  /** One `if len(v) != 0 { ss = append(ss, prefix+v) }` step of Encode. */
  method AppendIfPresent(ss: seq<string>, prefix: string, v: string) returns (ss': seq<string>)
    ensures ss' == ss + Optional(prefix, v)
  {
    ss' := ss;
    if |v| != 0 {
      ss' := ss' + [prefix + v];
    }
  }

  /** One `for _, v := range vs { ss = append(ss, prefix+v) }` loop of Encode. */
  method AppendEach(ss: seq<string>, prefix: string, vs: seq<string>) returns (ss': seq<string>)
    ensures ss' == ss + Each(prefix, vs)
  {
    ss' := ss;
    for i := 0 to |vs|
      invariant ss' == ss + Each(prefix, vs[..i])
    {
      assert vs[..i + 1][..i] == vs[..i];
      ss' := ss' + [prefix + vs[i]];
    }
    assert vs[..|vs|] == vs;
  }

  /** `(*Query).Encode`: appends each present field's token in order, then joins
      with single spaces. */
  method Encode(q: Query) returns (s: string)
    ensures s == Encoded(q)
  {
    var ss: seq<string> := [];
    ss := AppendIfPresent(ss, "", q.text);
    ss := AppendIfPresent(ss, "since:", q.since);
    ss := AppendIfPresent(ss, "until:", q.until);
    ss := AppendIfPresent(ss, "from:", q.from);
    ss := AppendIfPresent(ss, "to:", q.to);
    ss := AppendIfPresent(ss, "lang:", q.lang);
    assert ss == LeadingTokens(q);
    ss := AppendEach(ss, "filter:", q.filters);
    ss := AppendEach(ss, "exclude:", q.excludes);
    assert ss == LeadingTokens(q) + Each("filter:", q.filters) + Each("exclude:", q.excludes);
    ghost var body := ss;
    ss := AppendIfPresent(ss, "geocode:", q.geocode);
    ss := AppendIfPresent(ss, "url:", q.url);
    assert ss == body + TrailingTokens(q);
    s := Join(ss, " ");
  }

  /** `(*Query).IsEmpty`: the encoding is empty, which happens exactly when
      every field is empty. */
  method IsEmpty(q: Query) returns (b: bool)
    ensures b <==> Encoded(q) == ""
    ensures b <==>
      q.text == "" && q.since == "" && q.until == "" && q.from == "" && q.to == "" &&
      q.lang == "" && q.filters == [] && q.excludes == [] && q.geocode == "" && q.url == ""
  {
    var s := Encode(q);
    b := |s| == 0;
    EncodedEmptyIff(q);
  }

  /** A query with every field set: its tokens, in the fixed order, each
      prefixed by its field's keyword. */
  lemma FullQueryExample()
    ensures Tokens(Query("foo bar", "2020-09-06", "2020-09-07", "foo", "bar", "ja",
                         ["verified", "links"], ["replies", "hashtags"],
                         "35.6851508,139.7526768,0.1km", "www.example.com"))
         == ["foo bar", "since:" + "2020-09-06", "until:" + "2020-09-07", "from:" + "foo",
             "to:" + "bar", "lang:" + "ja", "filter:" + "verified", "filter:" + "links",
             "exclude:" + "replies", "exclude:" + "hashtags",
             "geocode:" + "35.6851508,139.7526768,0.1km", "url:" + "www.example.com"]
  {
    var q := Query("foo bar", "2020-09-06", "2020-09-07", "foo", "bar", "ja",
                   ["verified", "links"], ["replies", "hashtags"],
                   "35.6851508,139.7526768,0.1km", "www.example.com");
    assert "" + "foo bar" == "foo bar";
    assert Optional("", q.text) == ["foo bar"];
    assert Optional("since:", q.since) == ["since:" + "2020-09-06"];
    assert LeadingTokens(q) == ["foo bar", "since:" + "2020-09-06", "until:" + "2020-09-07", "from:" + "foo",
             "to:" + "bar", "lang:" + "ja"];
    assert TrailingTokens(q) == ["geocode:" + "35.6851508,139.7526768,0.1km", "url:" + "www.example.com"];
    assert Each("filter:", q.filters) == ["filter:" + "verified", "filter:" + "links"];
    assert Each("exclude:", q.excludes) == ["exclude:" + "replies", "exclude:" + "hashtags"];
  }

  /** The query with no field set encodes to "". */
  lemma EmptyQueryExample()
    ensures Encoded(Query("", "", "", "", "", "", [], [], "", "")) == ""
  {
  }
}
