/** The record projector (`export/record.go`): the tweet entries of a page in
    descending sort-index order, each joined with its tweet and author into one
    flat, export-ready record. The page is the decoded page of the search
    endpoint; see module ApiJson. */
module ExportRecord {
  import opened Results
  import opened Text
  import opened ApiJson
  import ExportHelper

  datatype Record = Record(
    id: Uint64,
    username: string,
    createdAt: RubyDate,
    fullText: string,
    retweetCount: Uint64,
    favoriteCount: Uint64,
    replyCount: Uint64,
    quoteCount: Uint64,
    geo: Option<LatLong>,
    lang: string,
    source: string)

  const TweetEntryPrefix := "sq-I-t-"

  function TweetId(e: Entry): string
  {
    e.content.item.content.tweet.id
  }

  /** The entry stands for a primary tweet: the per-tweet id prefix, a
      non-empty tweet id and the display type "Tweet". */
  predicate IsTweetEntry(e: Entry)
  {
    HasPrefix(e.entryId, TweetEntryPrefix) &&
    |TweetId(e)| != 0 &&
    e.content.item.content.tweet.displayType == "Tweet"
  }

  /** The entries considered: the tweet entries of the first instruction's add
      entries, in document order; none when there are no instructions. */
  function Candidates(j: Adaptive): seq<Entry>
  {
    var ins := j.timeline.instructions;
    if |ins| == 0 then [] else ExportHelper.Kept(ins[0].addEntries.entries, IsTweetEntry)
  }

  /** x does not sort below y: Go's `x.SortIndex > y.SortIndex` is false for
      the pair (y, x). */
  predicate AtLeast(x: Entry, y: Entry)
  {
    !Less(x.sortIndex, y.sortIndex)
  }

  /** Sort indexes do not increase along es (string comparison). */
  ghost predicate Descending(es: seq<Entry>)
  {
    forall p, q :: 0 <= p < q < |es| ==> AtLeast(es[p], es[q])
  }

  /** es is an arrangement of the candidates in descending sort-index order;
      equal sort indexes may come in any order (`sort.Slice` is not stable). */
  ghost predicate SortedArrangement(es: seq<Entry>, of: seq<Entry>)
  {
    Descending(es) && multiset(es) == multiset(of)
  }

  /** Positions below n, other than j, are in descending order. */
  ghost predicate DescendingExcept(s: seq<Entry>, n: int, j: int)
    requires n <= |s|
  {
    forall p, q :: 0 <= p < q < n && p != j && q != j ==> AtLeast(s[p], s[q])
  }

  lemma LessAsymmetric(a: string, b: string)
    requires Less(a, b)
    ensures !Less(b, a)
  {
    if Less(b, a) {
      LessTransitive(a, b, a);
      LessIrreflexive(a);
    }
  }

  /** `sort.Slice(es, func(i, j) { es[i].SortIndex > es[j].SortIndex })`,
      in place, as an insertion sort. */
  method SortDescending(a: array<Entry>)
    modifies a
    ensures Descending(a[..])
    ensures multiset(a[..]) == old(multiset(a[..]))
  {
    var i := 0;
    while i < a.Length
      invariant 0 <= i <= a.Length
      invariant Descending(a[..i])
      invariant multiset(a[..]) == old(multiset(a[..]))
    {
      var j := i;
      while j > 0 && Less(a[j - 1].sortIndex, a[j].sortIndex)
        invariant 0 <= j <= i
        invariant DescendingExcept(a[..], i + 1, j)
        invariant forall q :: j < q <= i ==> AtLeast(a[j], a[q])
        invariant multiset(a[..]) == old(multiset(a[..]))
      {
        SwapStep(a[..], i + 1, j);
        a[j - 1], a[j] := a[j], a[j - 1];
        j := j - 1;
      }
      InsertDone(a[..], i + 1, j);
      i := i + 1;
    }
    assert a[..a.Length] == a[..];
  }

  /** Swapping the moving entry at j with its larger left neighbour keeps the
      rest in order and the moving entry above everything to its right. */
  lemma SwapStep(s: seq<Entry>, n: int, j: int)
    requires 0 < j < n <= |s|
    requires DescendingExcept(s, n, j)
    requires forall q :: j < q < n ==> AtLeast(s[j], s[q])
    requires Less(s[j - 1].sortIndex, s[j].sortIndex)
    ensures var t := s[j - 1 := s[j]][j := s[j - 1]];
      DescendingExcept(t, n, j - 1) && forall q :: j - 1 < q < n ==> AtLeast(t[j - 1], t[q])
  {
    var t := s[j - 1 := s[j]][j := s[j - 1]];
    LessAsymmetric(s[j - 1].sortIndex, s[j].sortIndex);
    forall q | j < q < n ensures AtLeast(t[j - 1], t[q]) {
    }
  }

  /** When the moving entry stops (at the front, or below an entry that is at
      least as large), the first n positions are in descending order. */
  lemma InsertDone(s: seq<Entry>, n: int, j: int)
    requires 0 <= j < n <= |s|
    requires DescendingExcept(s, n, j)
    requires forall q :: j < q < n ==> AtLeast(s[j], s[q])
    requires j > 0 ==> AtLeast(s[j - 1], s[j])
    ensures Descending(s[..n])
  {
    forall p, q | 0 <= p < q < n ensures AtLeast(s[p], s[q]) {
      if q == j && p < j - 1 {
        AtLeastTransitive(s[p].sortIndex, s[j - 1].sortIndex, s[j].sortIndex);
      }
    }
  }

  /** ids lists the tweet ids of es, position by position. */
  ghost predicate IdsOf(es: seq<Entry>, ids: seq<string>)
  {
    |ids| == |es| && forall k :: 0 <= k < |es| ==> ids[k] == TweetId(es[k])
  }

  /** An entry is a candidate iff it is one of the first instruction's add
      entries and is a tweet entry; later instructions never contribute. */
  lemma CandidatesIff(j: Adaptive, e: Entry)
    ensures e in Candidates(j) <==>
      |j.timeline.instructions| > 0 && e in j.timeline.instructions[0].addEntries.entries &&
      HasPrefix(e.entryId, "sq-I-t-") &&
      e.content.item.content.tweet.id != "" && e.content.item.content.tweet.displayType == "Tweet"
  {
    if |j.timeline.instructions| > 0 {
      ExportHelper.KeptMembers(j.timeline.instructions[0].addEntries.entries, IsTweetEntry);
    }
  }

  /** `ReverseSortedTweetIds`: the tweet ids of the candidates, in descending
      sort-index order; empty, not an error, for a page without instructions. */
  method ReverseSortedTweetIds(j: Adaptive) returns (ids: seq<string>)
    ensures exists es :: SortedArrangement(es, Candidates(j)) && IdsOf(es, ids)
    ensures |ids| == |Candidates(j)|
    ensures |j.timeline.instructions| == 0 ==> ids == []
  {
    var ins := j.timeline.instructions;
    if |ins| == 0 {
      ids := [];
      assert SortedArrangement([], Candidates(j)) && IdsOf([], ids);
      return;
    }
    var es := ExportHelper.Filter(ins[0].addEntries.entries, IsTweetEntry);
    var a := new Entry[|es|](k requires 0 <= k < |es| => es[k]);
    assert a[..] == es;
    SortDescending(a);
    ids := ExportHelper.Map(a[..], TweetId);
    assert SortedArrangement(a[..], Candidates(j)) && IdsOf(a[..], ids);
    assert |multiset(a[..])| == |multiset(es)|;
  }

  /** The tweet a page holds under id, or Go's zero tweet when it has none. */
  function LookupTweet(j: Adaptive, id: string): Tweet
  {
    if id in j.globalObjects.tweets then j.globalObjects.tweets[id] else ZeroTweet
  }

  /** The key of a tweet's author in the users map: the decimal user id. */
  function UserKey(t: Tweet): string
  {
    NatToDecimal(t.userId)
  }

  /** The record for one tweet id: the tweet's own fields copied unchanged,
      the author's screen name (empty when the author is missing), and the
      geo coordinates exactly when the tweet has a geo value. */
  function RecordOf(j: Adaptive, id: string): (r: Record)
    ensures var t := LookupTweet(j, id);
      && r.id == t.id && r.createdAt == t.createdAt && r.fullText == t.fullText
      && r.retweetCount == t.retweetCount && r.favoriteCount == t.favoriteCount
      && r.replyCount == t.replyCount && r.quoteCount == t.quoteCount
      && r.lang == t.lang && r.source == t.source
    ensures var t := LookupTweet(j, id);
      r.username == if UserKey(t) in j.globalObjects.users then j.globalObjects.users[UserKey(t)].screenName else ""
    ensures var t := LookupTweet(j, id);
      (r.geo.None? <==> t.geo.None?) && (t.geo.Some? ==> r.geo.value == t.geo.value.coordinates)
  {
    var t := if id in j.globalObjects.tweets then j.globalObjects.tweets[id] else ZeroTweet;
    var u := if NatToDecimal(t.userId) in j.globalObjects.users then j.globalObjects.users[NatToDecimal(t.userId)] else ZeroUser;
    var geo := if t.geo.Some? then Some(t.geo.value.coordinates) else None;
    Record(t.id, u.screenName, t.createdAt, t.fullText, t.retweetCount, t.favoriteCount,
           t.replyCount, t.quoteCount, geo, t.lang, t.source)
  }

  /** records holds the record of each entry of es, position by position. */
  ghost predicate RecordsOf(j: Adaptive, es: seq<Entry>, records: seq<Record>)
  {
    |records| == |es| && forall k :: 0 <= k < |es| ==> records[k] == RecordOf(j, TweetId(es[k]))
  }

  /** `NewRecordsFromAdaptive`: one record per sorted tweet id, in the same
      order. */
  method NewRecordsFromAdaptive(j: Adaptive) returns (records: seq<Record>)
    ensures exists es :: SortedArrangement(es, Candidates(j)) && RecordsOf(j, es, records)
  {
    var ids := ReverseSortedTweetIds(j);
    records := ExportHelper.Map(ids, id => RecordOf(j, id));
    ghost var es :| SortedArrangement(es, Candidates(j)) && IdsOf(es, ids);
    assert RecordsOf(j, es, records);
  }
}
