/**
 * listConversations of src/lib/listConversations.ts: the same statement as the src/tools listing,
 * but rows are read with the throwing parseConversation and summarised by the src/lib summariser.
 */
module LibList {
  import opened Wrappers
  import opened Records
  import opened Keys
  import opened Summaries
  import opened Scans
  import opened QueryRules
  import LibSummary
  import ToolsList

  /** What one fetched row adds, or the exception it raises. */
  function Step(store: Store, json: Json, row: Row): (r: Result<seq<ListEntry>>)
    ensures r.Err? <==> LibSummary.ParseConversation(json, row.key, row.value).Err?
    ensures r.Ok? ==> |r.value| <= 1
  {
    match LibSummary.ParseConversation(json, row.key, row.value)
    case Err(e) => Err(e)
    case Ok(None) => Ok([])
    case Ok(Some(c)) => Ok([ListEntryOf(c, LibSummary.SummaryOf(c, Some(DbFetch(store, json))))])
  }

  function StepFn(store: Store, json: Json): Row -> Result<seq<ListEntry>>
  {
    row => Step(store, json, row)
  }

  /** The answer: the entries of the fetched rows and the family's size, or the first exception. */
  function Listing(store: Store, json: Json, order: RowOrder, o: ListOptions): Result<ListResult>
  {
    match Collect(ToolsList.Fetched(store, order, o), StepFn(store, json))
    case Err(e) => Err(e)
    case Ok(entries) => Ok(ListResult(entries, |ScanPrefix(store, ConversationPrefix)|))
  }

  /** listConversations */
  method ListConversations(store: Store, json: Json, order: RowOrder, o: ListOptions) returns (r: Result<ListResult>)
    ensures r == Listing(store, json, order, o)
  {
    var rows := ToolsList.Fetched(store, order, o);
    var step := StepFn(store, json);
    var conversations: seq<ListEntry> := [];
    var i := 0;
    while i < |rows|
      invariant 0 <= i <= |rows|
      invariant Collect(rows[..i], step) == Ok(conversations)
    {
      var items := ListRow(store, json, rows[i]);
      assert step(rows[i]) == items;
      CollectNext(rows, i, step);
      if items.Err? {
        CollectFailureSticks(rows, i + 1, step);
        return Err(items.error);
      }
      conversations := conversations + items.value;
      i := i + 1;
    }
    assert rows[..i] == rows;
    r := Ok(ListResult(conversations, |ScanPrefix(store, ConversationPrefix)|));
  }

  /** The loop body: parse the row (which may throw), summarise it and push its entry. */
  method ListRow(store: Store, json: Json, row: Row) returns (r: Result<seq<ListEntry>>)
    ensures r == Step(store, json, row)
  {
    match LibSummary.ParseConversation(json, row.key, row.value) {
      case Err(e) =>
        return Err(e);
      case Ok(None) =>
        return Ok([]);
      case Ok(Some(c)) =>
        var s := LibSummary.GetConversationSummary(c, Some(DbFetch(store, json)));
        return Ok([ListEntryOf(c, s)]);
    }
  }

  /**
   * The listing throws exactly when a fetched row holds malformed JSON or the JSON `null`; rows
   * whose value is missing or empty are skipped; a successful listing has at most `limit` entries.
   */
  lemma ListingFails(store: Store, json: Json, order: RowOrder, o: ListOptions)
    ensures var rows := ToolsList.Fetched(store, order, o);
      Listing(store, json, order, o).Err? <==>
        exists k :: 0 <= k < |rows| && Truthy(rows[k].value)
          && (json.conversation(rows[k].value.value).Malformed? || json.conversation(rows[k].value.value).JsonNull?)
    ensures Listing(store, json, order, o).Ok? && 0 <= o.limit.GetOr(50) ==>
      |Listing(store, json, order, o).value.conversations| <= o.limit.GetOr(50)
  {
    var rows := ToolsList.Fetched(store, order, o);
    var step := StepFn(store, json);
    CollectFails(rows, step);
    if Collect(rows, step).Ok? {
      var plain := (row: Row) => if step(row).Ok? then step(row).value else [];
      CollectWithoutFailure(rows, step, plain);
      GatherAtMostOne(rows, plain);
    }
  }
}
