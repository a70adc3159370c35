/** The decoded search page of the adaptive search endpoint (the Go package
    `api/json`: adaptive.go, tweet.go, user.go) and the lookup of the next
    pagination cursor in it. A JSON field that is absent decodes to Go's zero
    value, so every field is always present here, as in the Go structs. */
module ApiJson {
  import opened Results

  /** Go's `uint64`. */
  type Uint64 = n: nat | n < 0x1_0000_0000_0000_0000

  /** A `[latitude, longitude]` pair; the coordinates are only copied, never
      computed on, so they are kept as plain numbers. */
  datatype LatLong = LatLong(latitude: real, longitude: real)

  datatype Geo = Geo(geoType: string, coordinates: LatLong)

  /** An instant decoded from the service's Ruby-style date; treated as opaque.
      `RubyDate(0)` stands for Go's zero `time.Time`. */
  datatype RubyDate = RubyDate(instant: int)

  datatype Tweet = Tweet(
    id: Uint64,
    userId: Uint64,
    fullText: string,
    retweetCount: Uint64,
    favoriteCount: Uint64,
    replyCount: Uint64,
    quoteCount: Uint64,
    geo: Option<Geo>,
    lang: string,
    source: string,
    createdAt: RubyDate)

  /** What a lookup of a missing key in the tweets map yields in Go. */
  const ZeroTweet := Tweet(0, 0, "", 0, 0, 0, 0, None, "", "", RubyDate(0))

  datatype User = User(
    id: Uint64,
    name: string,
    screenName: string,
    location: string,
    description: string,
    url: string,
    followersCount: Uint64,
    friendsCount: Uint64,
    verified: bool,
    createdAt: RubyDate)

  const ZeroUser := User(0, "", "", "", "", "", 0, 0, false, RubyDate(0))

  datatype GlobalObjects = GlobalObjects(tweets: map<string, Tweet>, users: map<string, User>)

  datatype Cursor = Cursor(value: string, cursorType: string)
  datatype Operation = Operation(cursor: Cursor)
  datatype ContentTweet = ContentTweet(id: string, displayType: string)
  datatype ItemContent = ItemContent(tweet: ContentTweet)
  datatype Item = Item(content: ItemContent)
  datatype Content = Content(operation: Operation, item: Item)
  datatype Entry = Entry(entryId: string, sortIndex: string, content: Content)
  datatype AddEntries = AddEntries(entries: seq<Entry>)
  datatype ReplaceEntry = ReplaceEntry(entryIdToReplace: string, entry: Entry)
  datatype Instruction = Instruction(addEntries: AddEntries, replaceEntry: ReplaceEntry)
  datatype Timeline = Timeline(id: string, instructions: seq<Instruction>)
  datatype Adaptive = Adaptive(globalObjects: GlobalObjects, timeline: Timeline)

  /** The well-known id of the element carrying the next-page cursor. */
  const CursorBottom := "sq-cursor-bottom"

  const CursorNotFound := "cursor not found"

  function CursorValue(e: Entry): string
  {
    e.content.operation.cursor.value
  }

  /** The instruction replaces the bottom cursor. */
  predicate ReplacesBottom(i: Instruction)
  {
    i.replaceEntry.entryIdToReplace == CursorBottom
  }

  /** k is the first position of es holding the bottom-cursor entry. */
  predicate FirstBottomEntry(es: seq<Entry>, k: int)
  {
    0 <= k < |es| && es[k].entryId == CursorBottom &&
    forall m :: 0 <= m < k ==> es[m].entryId != CursorBottom
  }

  /** The instruction carries the bottom cursor in either of its two places. */
  predicate CarriesBottom(i: Instruction)
  {
    ReplacesBottom(i) ||
    exists k :: 0 <= k < |i.addEntries.entries| && i.addEntries.entries[k].entryId == CursorBottom
  }

  /** k is the first instruction of ins that carries the bottom cursor. */
  predicate FirstCarrier(ins: seq<Instruction>, k: int)
  {
    0 <= k < |ins| && CarriesBottom(ins[k]) &&
    forall m :: 0 <= m < k ==> !CarriesBottom(ins[m])
  }

  /** The inner scan of `FindCursor`: the cursor of the first add entry whose id
      is the bottom-cursor sentinel. */
  function FindInEntries(es: seq<Entry>): (r: Option<string>)
    ensures r.None? <==> forall k :: 0 <= k < |es| ==> es[k].entryId != CursorBottom
    ensures forall k :: FirstBottomEntry(es, k) ==> r == Some(CursorValue(es[k]))
  {
    if |es| == 0 then None
    else if es[0].entryId == CursorBottom then Some(CursorValue(es[0]))
    else
      var r := FindInEntries(es[1..]);
      assert forall k :: FirstBottomEntry(es, k) ==> k > 0 && FirstBottomEntry(es[1..], k - 1);
      r
  }

  /** `Adaptive.FindCursor` over a list of instructions, in document order;
      within one instruction the replace entry is checked before the add
      entries. Fails, with "cursor not found", iff no instruction carries the
      sentinel; otherwise the first carrier decides the value. */
  function FindCursorIn(ins: seq<Instruction>): (r: Result<string>)
    ensures r.Err? <==> forall k :: 0 <= k < |ins| ==> !CarriesBottom(ins[k])
    ensures r.Err? ==> r.message == CursorNotFound
    ensures forall k :: FirstCarrier(ins, k) && ReplacesBottom(ins[k]) ==>
      r == Ok(CursorValue(ins[k].replaceEntry.entry))
    ensures forall k, m ::
      (FirstCarrier(ins, k) && !ReplacesBottom(ins[k]) && FirstBottomEntry(ins[k].addEntries.entries, m))
      ==> r == Ok(CursorValue(ins[k].addEntries.entries[m]))
  {
    if |ins| == 0 then Err(CursorNotFound)
    else if ReplacesBottom(ins[0]) then Ok(CursorValue(ins[0].replaceEntry.entry))
    else match FindInEntries(ins[0].addEntries.entries)
      case Some(v) => Ok(v)
      case None =>
        var r := FindCursorIn(ins[1..]);
        assert forall k :: FirstCarrier(ins, k) ==> k > 0 && FirstCarrier(ins[1..], k - 1);
        r
  }

  /** `(*Adaptive).FindCursor`. */
  function FindCursor(j: Adaptive): (r: Result<string>)
    ensures r.Err? <==> forall k :: 0 <= k < |j.timeline.instructions| ==> !CarriesBottom(j.timeline.instructions[k])
  {
    FindCursorIn(j.timeline.instructions)
  }

  /** When some instruction carries the sentinel, a first one exists, so the
      two "first carrier" clauses of FindCursorIn always apply to a success. */
  lemma {:induction false} FirstCarrierExists(ins: seq<Instruction>, k: int)
    requires 0 <= k < |ins| && CarriesBottom(ins[k])
    ensures exists f :: FirstCarrier(ins, f) && f <= k
  {
    if !FirstCarrier(ins, k) {
      var m :| 0 <= m < k && CarriesBottom(ins[m]);
      FirstCarrierExists(ins, m);
    }
  }

  /** A successful lookup returns the cursor value of an element tied to the
      sentinel id: either a replace entry targeting it or an add entry with it
      (the value itself may be ""). */
  lemma FoundCursorComesFromSentinel(ins: seq<Instruction>)
    requires FindCursorIn(ins).Ok?
    ensures exists k :: 0 <= k < |ins| && SentinelValue(ins[k], FindCursorIn(ins).value)
  {
    var c :| 0 <= c < |ins| && CarriesBottom(ins[c]);
    FirstCarrierExists(ins, c);
    var f :| FirstCarrier(ins, f) && f <= c;
    if !ReplacesBottom(ins[f]) {
      var es := ins[f].addEntries.entries;
      var e :| 0 <= e < |es| && es[e].entryId == CursorBottom;
      FirstBottomEntryExists(es, e);
    }
  }

  /** v is the cursor value of an element of i tied to the sentinel id. */
  ghost predicate SentinelValue(i: Instruction, v: string)
  {
    (ReplacesBottom(i) && v == CursorValue(i.replaceEntry.entry)) ||
    exists m :: FirstBottomEntry(i.addEntries.entries, m) && v == CursorValue(i.addEntries.entries[m])
  }

  lemma {:induction false} FirstBottomEntryExists(es: seq<Entry>, k: int)
    requires 0 <= k < |es| && es[k].entryId == CursorBottom
    ensures exists f :: FirstBottomEntry(es, f) && f <= k
  {
    if !FirstBottomEntry(es, k) {
      var m :| 0 <= m < k && es[m].entryId == CursorBottom;
      FirstBottomEntryExists(es, m);
    }
  }
}

/** The pages used by the cursor-lookup table tests, and what the lookup gives
    on them. */
module ApiJsonExamples {
  import opened Results
  import opened ApiJson

  function CursorEntry(id: string, value: string): Entry
  {
    Entry(id, "", Content(Operation(Cursor(value, "")), Item(ItemContent(ContentTweet("", "")))))
  }

  const TopEntry := CursorEntry("sq-cursor-top", "refresh:foobar")
  const BottomEntry := CursorEntry(CursorBottom, "scroll:foobar")
  const NoReplace := ReplaceEntry("", CursorEntry("", ""))
  const NoEntries := AddEntries([])
  const EmptyObjects := GlobalObjects(map[], map[])

  function Page(ins: seq<Instruction>): Adaptive
  {
    Adaptive(EmptyObjects, Timeline("", ins))
  }

  /** A replace instruction for the top cursor is skipped; the later one for the
      bottom cursor supplies the value. */
  lemma ReplaceEntryExample()
    ensures FindCursor(Page([Instruction(NoEntries, ReplaceEntry("sq-cursor-top", TopEntry)),
                             Instruction(NoEntries, ReplaceEntry(CursorBottom, BottomEntry))]))
            == Ok("scroll:foobar")
  {
    var ins := [Instruction(NoEntries, ReplaceEntry("sq-cursor-top", TopEntry)),
                Instruction(NoEntries, ReplaceEntry(CursorBottom, BottomEntry))];
    assert FirstCarrier(ins, 1);
  }

  /** Among add entries, the top cursor is skipped and the bottom one is used. */
  lemma AddEntriesExample()
    ensures FindCursor(Page([Instruction(AddEntries([TopEntry, BottomEntry]), NoReplace)]))
            == Ok("scroll:foobar")
  {
    var ins := [Instruction(AddEntries([TopEntry, BottomEntry]), NoReplace)];
    assert ins[0].addEntries.entries[1].entryId == CursorBottom;
    assert FirstCarrier(ins, 0);
    assert FirstBottomEntry(ins[0].addEntries.entries, 1);
  }

  /** A page without instructions has no cursor. */
  lemma NoCursorExample()
    ensures FindCursor(Page([])) == Err(CursorNotFound)
  {
  }
}
