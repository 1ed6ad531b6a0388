/** listConversations of src/tools/list-conversations.ts. */
module ToolsList {
  import opened Wrappers
  import opened Text
  import opened Records
  import opened Keys
  import opened Summaries
  import opened Scans
  import opened QueryRules
  import ToolsSummary

  /**
   * The record a conversation row holds, with `composerId` set to the key minus the prefix;
   * nothing for a skipped row (missing, empty or 'null' value, malformed JSON, or the JSON
   * `null`, whose id assignment throws inside the `try`).
   */
  function ParseRow(json: Json, row: Row): (r: Option<Conversation>)
    ensures r.Some? <==> !Absent(row.value) && json.conversation(row.value.value).Value?
    ensures r.Some? ==> r.value == json.conversation(row.value.value).value.(composerId := Some(SliceFrom(row.key, |ConversationPrefix|)))
  {
    if Absent(row.value) then None
    else
      match json.conversation(row.value.value)
      case Value(parsed) => Some(parsed.(composerId := Some(SliceFrom(row.key, |ConversationPrefix|))))
      case _ => None
  }

  /** What one fetched row adds to the listing. */
  function Step(store: Store, json: Json, row: Row): (r: seq<ListEntry>)
    ensures |r| == if ParseRow(json, row).Some? then 1 else 0
  {
    match ParseRow(json, row)
    case None => []
    case Some(c) => [ListEntryOf(c, ToolsSummary.SummaryOf(c, Some(DbFetch(store, json))))]
  }

  function StepFn(store: Store, json: Json): Row -> seq<ListEntry>
  {
    row => Step(store, json, row)
  }

  function ParsesFn(json: Json): Row -> bool
  {
    row => ParseRow(json, row).Some?
  }

  /** The rows the statement returns: the family's rows in the requested order, then LIMIT and OFFSET. */
  function Fetched(store: Store, order: RowOrder, o: ListOptions): seq<Row>
  {
    SqlPage(order(ListOrder(o), ScanPrefix(store, ConversationPrefix)), o.limit.GetOr(50), o.offset.GetOr(0))
  }

  /** listConversations */
  method ListConversations(store: Store, json: Json, order: RowOrder, o: ListOptions) returns (r: ListResult)
    ensures r.total == |ScanPrefix(store, ConversationPrefix)|
    ensures r.conversations == Gather(Fetched(store, order, o), StepFn(store, json))
  {
    var rows := Fetched(store, order, o);
    var conversations: seq<ListEntry> := [];
    var i := 0;
    while i < |rows|
      invariant 0 <= i <= |rows|
      invariant conversations == Gather(rows[..i], StepFn(store, json))
    {
      var entry := ListRow(store, json, rows[i]);
      GatherNext(rows, i, StepFn(store, json));
      conversations := conversations + entry;
      i := i + 1;
    }
    assert rows[..i] == rows;
    r := ListResult(conversations, |ScanPrefix(store, ConversationPrefix)|);
  }

  /** The loop body: parse the row, add its id, summarise it and push its entry. */
  method ListRow(store: Store, json: Json, row: Row) returns (entry: seq<ListEntry>)
    ensures entry == StepFn(store, json)(row)
  {
    entry := [];
    if !Absent(row.value) {
      match json.conversation(row.value.value) {
        case Value(parsed) =>
          var c := parsed.(composerId := Some(SliceFrom(row.key, |ConversationPrefix|)));
          var s := ToolsSummary.GetConversationSummary(c, Some(DbFetch(store, json)));
          entry := [ListEntryOf(c, s)];
        case _ =>
      }
    }
  }

  /**
   * The statement fetches only rows of the conversation family, and with no offset and a limit
   * the family fits under, it fetches every one of them.
   */
  lemma FetchedFromFamily(store: Store, order: RowOrder, o: ListOptions)
    ensures forall k :: 0 <= k < |Fetched(store, order, o)| ==> Fetched(store, order, o)[k] in ScanPrefix(store, ConversationPrefix)
    ensures o.offset.GetOr(0) == 0 && |ScanPrefix(store, ConversationPrefix)| <= o.limit.GetOr(50) ==>
      multiset(Fetched(store, order, o)) == multiset(ScanPrefix(store, ConversationPrefix))
  {
    var family := ScanPrefix(store, ConversationPrefix);
    var ordered := order(ListOrder(o), family);
    assert multiset(ordered) == multiset(family);
    forall k | 0 <= k < |Fetched(store, order, o)| ensures Fetched(store, order, o)[k] in family {
      assert Fetched(store, order, o)[k] in ordered;
      assert multiset(ordered)[Fetched(store, order, o)[k]] > 0;
    }
    if o.offset.GetOr(0) == 0 && |family| <= o.limit.GetOr(50) {
      assert |ordered| == |multiset(ordered)| == |family|;
      assert ordered[0..|ordered|] == ordered;
    }
  }

  /** One entry per fetched row that parses, hence at most `limit` of them. */
  lemma ListSize(store: Store, json: Json, order: RowOrder, o: ListOptions)
    ensures |Gather(Fetched(store, order, o), StepFn(store, json))| == Count(Fetched(store, order, o), ParsesFn(json))
    ensures 0 <= o.limit.GetOr(50) ==> |Gather(Fetched(store, order, o), StepFn(store, json))| <= o.limit.GetOr(50)
  {
    GatherCount(Fetched(store, order, o), StepFn(store, json), ParsesFn(json));
  }

  /**
   * Each entry comes from a fetched row: its id is the row's key minus the prefix, its creation
   * time the record's own, and its other fields the summary's.
   */
  lemma EntryFromRow(store: Store, json: Json, order: RowOrder, o: ListOptions, e: ListEntry)
    requires e in Gather(Fetched(store, order, o), StepFn(store, json))
    ensures exists k :: (0 <= k < |Fetched(store, order, o)| &&
      var row := Fetched(store, order, o)[k];
       ParseRow(json, row).Some?
       && e.composerId == Some(SliceFrom(row.key, |ConversationPrefix|))
       && e.createdAt == ParseRow(json, row).value.createdAt
       && (var s := ToolsSummary.SummaryOf(ParseRow(json, row).value, Some(DbFetch(store, json)));
           e.messageCount == s.messageCount && e.preview == s.preview && e.status == s.status && e.updatedAt == s.updatedAt))
  {
    GatherFrom(Fetched(store, order, o), StepFn(store, json), e);
  }
}
