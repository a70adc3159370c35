/** The older snapshot of the page model (`twitter/adaptive_json.go`): the same
    cursor lookup over a page whose entries have no item part, and which also
    carries the service's error list. */
module TwitterAdaptive {
  import opened Results
  import ApiJson

  datatype Cursor = Cursor(value: string, cursorType: string)
  datatype Operation = Operation(cursor: Cursor)
  datatype Content = Content(operation: Operation)
  datatype Entry = Entry(entryId: string, sortIndex: string, content: Content)
  datatype AddEntries = AddEntries(entries: seq<Entry>)
  datatype ReplaceEntry = ReplaceEntry(entryIdToReplace: string, entry: Entry)
  datatype Instruction = Instruction(addEntries: AddEntries, replaceEntry: ReplaceEntry)
  datatype Timeline = Timeline(id: string, instructions: seq<Instruction>)
  datatype Error = Error(code: int, message: string)
  datatype AdaptiveJson = AdaptiveJson(timeline: Timeline, errors: seq<Error>)

  const CursorBottom := "sq-cursor-bottom"

  predicate CarriesBottom(i: Instruction)
  {
    i.replaceEntry.entryIdToReplace == CursorBottom ||
    exists k :: 0 <= k < |i.addEntries.entries| && i.addEntries.entries[k].entryId == CursorBottom
  }

  function FindInEntries(es: seq<Entry>): (r: Option<string>)
    ensures r.None? <==> forall k :: 0 <= k < |es| ==> es[k].entryId != CursorBottom
  {
    if |es| == 0 then None
    else if es[0].entryId == CursorBottom then Some(es[0].content.operation.cursor.value)
    else FindInEntries(es[1..])
  }

  /** `(*AdaptiveJson).FindCursor` over the instructions: in document order,
      replace entry before add entries; "cursor not found" iff no instruction
      carries the sentinel. */
  function FindCursorIn(ins: seq<Instruction>): (r: Result<string>)
    ensures r.Err? <==> forall k :: 0 <= k < |ins| ==> !CarriesBottom(ins[k])
    ensures r.Err? ==> r.message == "cursor not found"
  {
    if |ins| == 0 then Err("cursor not found")
    else if ins[0].replaceEntry.entryIdToReplace == CursorBottom then
      Ok(ins[0].replaceEntry.entry.content.operation.cursor.value)
    else match FindInEntries(ins[0].addEntries.entries)
      case Some(v) => Ok(v)
      case None => FindCursorIn(ins[1..])
  }

  function FindCursor(j: AdaptiveJson): (r: Result<string>)
    ensures r.Err? <==> forall k :: 0 <= k < |j.timeline.instructions| ==> !CarriesBottom(j.timeline.instructions[k])
  {
    FindCursorIn(j.timeline.instructions)
  }

  /** The current page shape of an older entry: the same id, sort index and
      cursor, with an empty item. */
  function UpgradeEntry(e: Entry): ApiJson.Entry
  {
    var c := e.content.operation.cursor;
    ApiJson.Entry(e.entryId, e.sortIndex,
      ApiJson.Content(ApiJson.Operation(ApiJson.Cursor(c.value, c.cursorType)),
                      ApiJson.Item(ApiJson.ItemContent(ApiJson.ContentTweet("", "")))))
  }

  /** The current page shape of a list of older entries, element by element. */
  function UpgradeEntries(es: seq<Entry>): seq<ApiJson.Entry>
  {
    seq(|es|, k requires 0 <= k < |es| => UpgradeEntry(es[k]))
  }

  function UpgradeInstruction(i: Instruction): ApiJson.Instruction
  {
    ApiJson.Instruction(
      ApiJson.AddEntries(UpgradeEntries(i.addEntries.entries)),
      ApiJson.ReplaceEntry(i.replaceEntry.entryIdToReplace, UpgradeEntry(i.replaceEntry.entry)))
  }

  /** The current page shape of a list of older instructions, element by
      element. */
  function UpgradeInstructions(ins: seq<Instruction>): seq<ApiJson.Instruction>
  {
    seq(|ins|, k requires 0 <= k < |ins| => UpgradeInstruction(ins[k]))
  }

  lemma {:induction false} FindInEntriesAgrees(es: seq<Entry>)
    ensures match FindInEntries(es)
      case None => ApiJson.FindInEntries(UpgradeEntries(es)).None?
      case Some(v) => ApiJson.FindInEntries(UpgradeEntries(es)) == Some(v)
  {
    if |es| > 0 {
      assert UpgradeEntries(es)[1..] == UpgradeEntries(es[1..]);
      FindInEntriesAgrees(es[1..]);
    }
  }

  /** The older lookup is the same function as the current one: on every page,
      it gives the current lookup's result for the same instructions. */
  lemma {:induction false} FindCursorAgrees(ins: seq<Instruction>)
    ensures FindCursorIn(ins) == ApiJson.FindCursorIn(UpgradeInstructions(ins))
  {
    if |ins| > 0 {
      var up := UpgradeInstructions(ins);
      assert up[0] == UpgradeInstruction(ins[0]);
      FindInEntriesAgrees(ins[0].addEntries.entries);
      assert up[1..] == UpgradeInstructions(ins[1..]);
      FindCursorAgrees(ins[1..]);
    }
  }
}
