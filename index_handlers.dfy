/**
 * The tool handlers of the server in src/index.ts: list_conversations, search_conversations,
 * get_conversation and search_conversations_advanced. Each reads the conversation family with
 * the server's own reader and summariser, and answers a result, a refusal of its arguments, or
 * the exception its `try` caught. The JSON rendering of the answers is not modelled.
 */
module IndexHandlers {
  import opened Wrappers
  import opened Text
  import opened Records
  import opened Keys
  import opened Summaries
  import opened Scans
  import opened Sorting
  import opened QueryRules
  import opened IndexSummary
  import ConversationTools

  /** What a tool call answers. */
  datatype Response<T> =
    | Answer(result: T)
    | Refused(text: string)                 // an argument check answers `isError` with this text
    | Caught(context: string, error: Error) // `${context}: ${error.message}`, with `isError`

  function Respond<T>(r: Result<T>, context: string): (resp: Response<T>)
    ensures r.Ok? <==> resp.Answer?
    ensures r.Ok? ==> resp.result == r.value
    ensures r.Err? ==> resp == Caught(context, r.error)
  {
    match r
    case Ok(v) => Answer(v)
    case Err(e) => Caught(context, e)
  }

  /** A numeric argument with a JavaScript `||` default: the default when absent or 0. */
  function OrNumber(n: Option<int>, default: int): (r: int)
    ensures Bound(n) ==> r == n.value
    ensures !Bound(n) ==> r == default
  {
    if Bound(n) then n.value else default
  }

  /**
   * `t ? new Date(t).toISOString() : null`. The ISO text is stood in for by its instant, `None`
   * by `null`; an instant a Date cannot hold makes `toISOString` throw `RangeError`.
   */
  function IsoDate(t: Option<int>): (r: Result<Option<int>>)
    ensures r.Err? <==> Bound(t) && AsDate(t).None?
    ensures r.Err? ==> r.error == RangeError
    ensures r.Ok? ==> (r.value.None? <==> !Bound(t)) && (r.value.Some? ==> r.value == t)
  {
    if !Bound(t) then Ok(None) else if AsDate(t).None? then Err(RangeError) else Ok(t)
  }

  /** A conversation in the list and advanced-search answers. */
  datatype IndexEntry = IndexEntry(
    composerId: Option<string>,
    messageCount: nat,
    status: string,
    preview: string,
    createdAt: Option<int>,
    updatedAt: Option<int>)

  /** The entry for a summary with the given creation and update times. */
  function EntryAt(s: IndexSummary, createdAt: Option<int>, updatedAt: Option<int>): (r: Result<IndexEntry>)
    ensures r.Err? <==> IsoDate(createdAt).Err? || IsoDate(updatedAt).Err?
    ensures r.Err? ==> r.error == RangeError
    ensures r.Ok? ==> (r.value.composerId == s.composerId && r.value.messageCount == s.messageCount
      && r.value.status == s.status && r.value.preview == s.preview
      && r.value.createdAt == IsoDate(createdAt).value && r.value.updatedAt == IsoDate(updatedAt).value)
  {
    match IsoDate(createdAt)
    case Err(e) => Err(e)
    case Ok(c) =>
      match IsoDate(updatedAt)
      case Err(e) => Err(e)
      case Ok(u) => Ok(IndexEntry(s.composerId, s.messageCount, s.status, s.preview, c, u))
  }

  /** `a.updated_at || a.created_at || ''`, with `None` for the empty text. */
  function DateKey(e: IndexEntry): Option<int>
  {
    if e.updatedAt.Some? then e.updatedAt else e.createdAt
  }

  /** `localeCompare` of two date texts: the empty text first, then ISO texts of four-digit years in time order. */
  function CompareDates(x: Option<int>, y: Option<int>): (r: int)
    ensures -1 <= r <= 1
  {
    if x.None? && y.None? then 0
    else if x.None? then -1
    else if y.None? then 1
    else if x.value < y.value then -1
    else if x.value == y.value then 0
    else 1
  }

  lemma CompareDatesAntisymmetric(x: Option<int>, y: Option<int>)
    ensures CompareDates(x, y) == -CompareDates(y, x)
  {
  }

  lemma CompareDatesTransitive(x: Option<int>, y: Option<int>, z: Option<int>)
    requires CompareDates(x, y) <= 0 && CompareDates(y, z) <= 0
    ensures CompareDates(x, z) <= 0
  {
  }

  // ----- list_conversations -----

  /** The conversation family in key order: `ORDER BY key`. */
  function KeyOrder(): Comparator<Row>
  {
    (a: Row, b: Row) => Compare(a.key, b.key)
  }

  function FamilyByKey(store: Store): seq<Row>
  {
    Sort(KeyOrder(), ScanPrefix(store, ConversationPrefix))
  }

  /** What one row adds to the list, or the exception it raises. */
  function ListStep(json: Json, row: Row): (r: Result<seq<IndexEntry>>)
    ensures r.Ok? ==> |r.value| <= 1
    ensures r.Err? ==> r.error == RangeError
  {
    match ParseConversation(json, row.key, row.value)
    case None => Ok([])
    case Some(c) =>
      var s := SummaryOf(c);
      match EntryAt(s, s.createdAt, s.lastUpdatedAt)
      case Err(e) => Err(e)
      case Ok(e) => Ok([e])
  }

  function ListStepFn(json: Json): Row -> Result<seq<IndexEntry>>
  {
    row => ListStep(json, row)
  }

  /** The list order: the most recent date text first (`dateB.localeCompare(dateA)`). */
  function RecentFirst(): Comparator<IndexEntry>
  {
    (a: IndexEntry, b: IndexEntry) => CompareDates(DateKey(b), DateKey(a))
  }

  lemma RecentFirstConsistent(entries: seq<IndexEntry>)
    ensures Consistent(RecentFirst(), entries)
  {
    var cmp := RecentFirst();
    forall a, b, c | a in entries && b in entries && c in entries && cmp(a, b) <= 0 && cmp(b, c) <= 0
      ensures cmp(a, c) <= 0
    {
      CompareDatesTransitive(DateKey(c), DateKey(b), DateKey(a));
    }
    forall a, b | a in entries && b in entries && cmp(a, b) >= 0
      ensures cmp(b, a) <= 0
    {
      CompareDatesAntisymmetric(DateKey(a), DateKey(b));
    }
  }

  datatype ListPage = ListPage(total: nat, returned: nat, conversations: seq<IndexEntry>)

  /** Sorting by date and cutting the page `slice(offset, offset + limit)`. */
  function Paginate(entries: seq<IndexEntry>, limit: Option<int>, offset: Option<int>): (r: ListPage)
    ensures r.total == |entries| && r.returned == |r.conversations|
    ensures var start := OrNumber(offset, 0); var size := OrNumber(limit, 50);
      0 <= start <= |entries| && 0 <= size ==>
        r.conversations == Sort(RecentFirst(), entries)[start..if start + size <= |entries| then start + size else |entries|]
    ensures var start := OrNumber(offset, 0); 0 <= start && |entries| <= start ==> r.conversations == []
  {
    var sorted := Sort(RecentFirst(), entries);
    var start := OrNumber(offset, 0);
    var page := JsSlice(sorted, start, start + OrNumber(limit, 50));
    ListPage(|entries|, |page|, page)
  }

  function ListResponse(store: Store, json: Json, limit: Option<int>, offset: Option<int>): Response<ListPage>
  {
    match Collect(FamilyByKey(store), ListStepFn(json))
    case Err(e) => Caught("Error listing conversations", e)
    case Ok(entries) => Answer(Paginate(entries, limit, offset))
  }

  /** list_conversations */
  method ListConversations(store: Store, json: Json, limit: Option<int>, offset: Option<int>) returns (r: Response<ListPage>)
    ensures r == ListResponse(store, json, limit, offset)
  {
    var listed := ListRows(json, FamilyByKey(store));
    match listed {
      case Err(e) => r := Caught("Error listing conversations", e);
      case Ok(conversations) => r := Answer(Paginate(conversations, limit, offset));
    }
  }

  /** The row loop of list_conversations: every row's entry, or the first exception. */
  method ListRows(json: Json, rows: seq<Row>) returns (r: Result<seq<IndexEntry>>)
    ensures r == Collect(rows, ListStepFn(json))
  {
    var step := ListStepFn(json);
    var conversations: seq<IndexEntry> := [];
    var i := 0;
    while i < |rows|
      invariant 0 <= i <= |rows|
      invariant Collect(rows[..i], step) == Ok(conversations)
    {
      var items := ListRow(json, rows[i]);
      assert step(rows[i]) == items;
      CollectNext(rows, i, step);
      if items.Err? {
        CollectFailureSticks(rows, i + 1, step);
        return Err(items.error);
      }
      conversations := conversations + items.value;
      i := i + 1;
    }
    assert rows[..i] == rows;
    r := Ok(conversations);
  }

  /** The page holds entries of the list, most recent first. */
  lemma PageOrdered(entries: seq<IndexEntry>, limit: Option<int>, offset: Option<int>)
    ensures var page := Paginate(entries, limit, offset).conversations;
      multiset(page) <= multiset(entries) && Sorted(RecentFirst(), page)
  {
    var sorted := Sort(RecentFirst(), entries);
    var start := OrNumber(offset, 0);
    var end := start + OrNumber(limit, 50);
    var page := JsSlice(sorted, start, end);
    assert multiset(page) <= multiset(entries) && Sorted(RecentFirst(), page) by {
      RecentFirstConsistent(entries);
      SortCorrect(RecentFirst(), entries);
      SliceSubMultiset(sorted, start, end);
      SliceSorted(RecentFirst(), sorted, start, end);
    }
    assert Paginate(entries, limit, offset).conversations == page;
  }

  /**
   * The page is the window from `offset` of length `limit` (defaults 0 and 50) of the whole list
   * ordered most recent first.
   */
  lemma PageWindow(entries: seq<IndexEntry>, limit: Option<int>, offset: Option<int>)
    ensures var sorted := Sort(RecentFirst(), entries);
      var start := OrNumber(offset, 0); var size := OrNumber(limit, 50);
      multiset(sorted) == multiset(entries) && Sorted(RecentFirst(), sorted)
      && (0 <= start <= |entries| && 0 <= size ==>
            Paginate(entries, limit, offset).conversations == sorted[start..if start + size <= |entries| then start + size else |entries|])
  {
    RecentFirstConsistent(entries);
    SortCorrect(RecentFirst(), entries);
  }

  /**
   * Paging never skips or repeats an entry: the page at `offset` followed by the page at
   * `offset + limit` is the page of twice the size at `offset`.
   */
  lemma PagesTile(entries: seq<IndexEntry>, limit: int, offset: nat)
    requires 0 < limit
    ensures Paginate(entries, Some(limit), Some(offset)).conversations
      + Paginate(entries, Some(limit), Some(offset + limit)).conversations
      == Paginate(entries, Some(limit + limit), Some(offset)).conversations
  {
    var sorted := Sort(RecentFirst(), entries);
    assert OrNumber(Some(offset), 0) == offset;
    SliceJoin(sorted, offset, offset + limit, offset + limit + limit);
  }

  /** The server's list entries never carry a conversation id. */
  lemma ListedWithoutId(json: Json, rows: seq<Row>)
    requires Collect(rows, ListStepFn(json)).Ok?
    ensures forall e :: e in Collect(rows, ListStepFn(json)).value ==> e.composerId.None?
  {
    var step := ListStepFn(json);
    CollectFails(rows, step);
    var plain := (row: Row) => if step(row).Ok? then step(row).value else [];
    CollectWithoutFailure(rows, step, plain);
    forall e: IndexEntry | e in Collect(rows, step).value ensures e.composerId.None? {
      GatherFrom(rows, plain, e);
    }
  }

  /** The loop body: parse the row, summarise it, and push its entry. */
  method ListRow(json: Json, row: Row) returns (r: Result<seq<IndexEntry>>)
    ensures r == ListStep(json, row)
  {
    var conv := ParseConversation(json, row.key, row.value);
    if conv.None? {
      return Ok([]);
    }
    var summary := GetConversationSummary(conv.value);
    var entry := EntryAt(summary, summary.createdAt, summary.lastUpdatedAt);
    if entry.Err? {
      return Err(entry.error);
    }
    r := Ok([entry.value]);
  }

  /**
   * A listing fails only with `RangeError`, for a date no Date can hold. Otherwise the page is a
   * slice of the readable conversations sorted most recent first, so it is in that order, and no
   * entry carries a conversation id.
   */
  lemma ListShape(store: Store, json: Json, limit: Option<int>, offset: Option<int>)
    ensures ListResponse(store, json, limit, offset).Caught? ==> ListResponse(store, json, limit, offset).error == RangeError
    ensures !ListResponse(store, json, limit, offset).Refused?
    ensures ListResponse(store, json, limit, offset).Answer? ==>
      (var page := ListResponse(store, json, limit, offset).result;
       var entries := Collect(FamilyByKey(store), ListStepFn(json)).value;
       page.total == |entries|
       && (var start := OrNumber(offset, 0); var size := OrNumber(limit, 50);
           0 <= start <= |entries| && 0 <= size ==>
             page.conversations == Sort(RecentFirst(), entries)[start..if start + size <= |entries| then start + size else |entries|])
       && Sorted(RecentFirst(), Sort(RecentFirst(), entries))
       && multiset(page.conversations) <= multiset(entries)
       && Sorted(RecentFirst(), page.conversations)
       && (forall k :: 0 <= k < |page.conversations| ==> page.conversations[k].composerId.None?))
  {
    var rows := FamilyByKey(store);
    var step := ListStepFn(json);
    CollectFails(rows, step);
    if Collect(rows, step).Ok? {
      var entries := Collect(rows, step).value;
      assert ListResponse(store, json, limit, offset) == Answer(Paginate(entries, limit, offset));
      PageOrdered(entries, limit, offset);
      PageWindow(entries, limit, offset);
      var page := Paginate(entries, limit, offset).conversations;
      forall k | 0 <= k < |page| ensures page[k].composerId.None? {
        assert page[k] in multiset(entries);
        ListedWithoutId(json, rows);
      }
    } else {
      var k :| 0 <= k < |rows| && step(rows[k]) == Err(Collect(rows, step).error);
      assert step(rows[k]) == ListStep(json, rows[k]);
    }
  }

  /** A slice of a sorted sequence is sorted. */
  lemma SliceSorted<T>(cmp: Comparator<T>, s: seq<T>, start: int, end: int)
    requires Sorted(cmp, s)
    ensures Sorted(cmp, JsSlice(s, start, end))
  {
    var a := SliceIndex(start, |s|);
    var b := SliceIndex(end, |s|);
    if a < b {
      var r := s[a..b];
      assert forall i, j :: 0 <= i < j < |r| ==> r[i] == s[a + i] && r[j] == s[a + j];
    }
  }

  // ----- search_conversations -----

  /** What one row does in the search loop: skipped when unreadable, else checked against the limit. */
  function SearchStep(json: Json, lowerQuery: string, row: Row): (r: Outcome<SearchResult>)
    ensures r.Fail? ==> r.error == RangeError
    ensures r.Checked? ==> |r.items| <= 1
    ensures r.Checked? ==> forall x :: x in r.items ==> 1 <= |x.matches| <= MaxMatches && x.id.None?
  {
    match ParseConversation(json, row.key, row.value)
    case None => Skip
    case Some(c) =>
      var s := SummaryOf(c);
      var matches := TopMatches(Plain(s.messages), lowerQuery);
      if |matches| == 0 then Checked([])
      else
        match IsoDate(s.createdAt)
        case Err(e) => Fail(e)
        case Ok(created) =>
          match IsoDate(s.lastUpdatedAt)
          case Err(e) => Fail(e)
          case Ok(updated) =>
            Checked([SearchResult(s.composerId, s.messageCount, s.preview, s.status, created, updated, matches)])
  }

  function SearchStepFn(json: Json, lowerQuery: string): Row -> Outcome<SearchResult>
  {
    row => SearchStep(json, lowerQuery, row)
  }

  const QueryRequired: string := "Error: Query parameter is required"

  /** The search over the family in store order, stopping once `limit` (default 20) results are in. */
  function SearchResponse(store: Store, json: Json, query: Option<string>, limit: Option<int>): Response<seq<SearchResult>>
  {
    if !Truthy(query) then Refused(QueryRequired)
    else
      Respond(Until(ScanPrefix(store, ConversationPrefix), SearchStepFn(json, ToLower(query.value)), OrNumber(limit, 20), []),
              "Error searching conversations")
  }

  /** search_conversations */
  method SearchConversations(store: Store, json: Json, query: Option<string>, limit: Option<int>) returns (r: Response<seq<SearchResult>>)
    ensures r == SearchResponse(store, json, query, limit)
  {
    if !Truthy(query) {
      return Refused(QueryRequired);
    }
    var rows := ScanPrefix(store, ConversationPrefix);
    var lowerQuery := ToLower(query.value);
    var max := OrNumber(limit, 20);
    var step := SearchStepFn(json, lowerQuery);
    var results: seq<SearchResult> := [];
    var i := 0;
    while i < |rows|
      invariant 0 <= i <= |rows|
      invariant Until(rows[i..], step, max, results) == Until(rows, step, max, [])
    {
      var row := rows[i];
      assert rows[i..][0] == row && rows[i..][1..] == rows[i + 1..];
      var outcome := SearchRow(json, lowerQuery, row);
      assert step(row) == outcome;
      match outcome {
        case Skip =>
        case Fail(e) =>
          return Caught("Error searching conversations", e);
        case Checked(items) =>
          results := results + items;
          if |results| >= max {
            return Answer(results);
          }
      }
      i := i + 1;
    }
    r := Answer(results);
  }

  /** The loop body: parse the row, summarise it, collect its matches and push its result. */
  method SearchRow(json: Json, lowerQuery: string, row: Row) returns (r: Outcome<SearchResult>)
    ensures r == SearchStep(json, lowerQuery, row)
  {
    var conv := ParseConversation(json, row.key, row.value);
    if conv.None? {
      return Skip;
    }
    var s := GetConversationSummary(conv.value);
    var matches := TopMatches(Plain(s.messages), lowerQuery);
    if |matches| == 0 {
      return Checked([]);
    }
    var created := IsoDate(s.createdAt);
    if created.Err? {
      return Fail(created.error);
    }
    var updated := IsoDate(s.lastUpdatedAt);
    if updated.Err? {
      return Fail(updated.error);
    }
    r := Checked([SearchResult(s.composerId, s.messageCount, s.preview, s.status, created.value, updated.value, matches)]);
  }

  /** The search is refused exactly without a query, and fails only with `RangeError`. */
  lemma SearchRefusals(store: Store, json: Json, query: Option<string>, limit: Option<int>)
    ensures SearchResponse(store, json, query, limit).Refused? <==> !Truthy(query)
    ensures SearchResponse(store, json, query, limit).Caught? ==> SearchResponse(store, json, query, limit).error == RangeError
  {
    if Truthy(query) {
      var rows := ScanPrefix(store, ConversationPrefix);
      var step := SearchStepFn(json, ToLower(query.value));
      var max := OrNumber(limit, 20);
      var u := Until(rows, step, max, []);
      if u.Err? {
        UntilFails(rows, step, max, []);
        var k :| 0 <= k < |rows| && step(rows[k]) == Fail(u.error);
        assert step(rows[k]) == SearchStep(json, ToLower(query.value), rows[k]);
      }
    }
  }

  /** One row's items in the search: one to three matches each and no conversation id. */
  lemma SearchItems(json: Json, lowerQuery: string, row: Row, x: SearchResult)
    requires x in NoBreak(SearchStepFn(json, lowerQuery))(row)
    ensures 1 <= |x.matches| <= MaxMatches && x.id.None?
  {
    assert NoBreak(SearchStepFn(json, lowerQuery))(row) == Items(SearchStep(json, lowerQuery, row));
  }

  /**
   * The search loop over any rows: a scan of the first rows that stops early only at the limit,
   * whose results have the shape of a row's items.
   */
  lemma UntilSearchShape(json: Json, lowerQuery: string, max: int, rows: seq<Row>)
    requires Until(rows, SearchStepFn(json, lowerQuery), max, []).Ok?
    ensures var r := Until(rows, SearchStepFn(json, lowerQuery), max, []).value;
      StopsAtLimit(rows, NoBreak(SearchStepFn(json, lowerQuery)), max, r)
      && (|r| < max ==> r == Gather(rows, NoBreak(SearchStepFn(json, lowerQuery))))
      && (forall j :: 0 <= j < |r| ==> 1 <= |r[j].matches| <= MaxMatches && r[j].id.None?)
      && (1 <= max ==> |r| <= max)
  {
    var step := SearchStepFn(json, lowerQuery);
    var r := Until(rows, step, max, []).value;
    UntilStops(rows, step, max);
    var n :| 0 <= n <= |rows| && r == Gather(rows[..n], NoBreak(step));
    forall j | 0 <= j < |r| ensures 1 <= |r[j].matches| <= MaxMatches && r[j].id.None? {
      GatherFrom(rows[..n], NoBreak(step), r[j]);
      var k :| 0 <= k < |rows[..n]| && r[j] in NoBreak(step)(rows[..n][k]);
      SearchItems(json, lowerQuery, rows[..n][k], r[j]);
    }
    if 1 <= max {
      forall k | 0 <= k < |rows| ensures |Items(step(rows[k]))| <= 1 {
        assert step(rows[k]) == SearchStep(json, lowerQuery, rows[k]);
      }
      UntilBound(rows, step, max, []);
    }
  }

  /**
   * The results answered are those of the first rows of the family, in store order, cut short only
   * once `limit` results are held (so fewer than `limit` are those of the whole family), each with
   * one to three matches and no conversation id; with a positive limit there are at most `limit`.
   */
  lemma SearchShape(store: Store, json: Json, query: string, limit: Option<int>)
    requires SearchResponse(store, json, Some(query), limit).Answer?
    ensures var r := SearchResponse(store, json, Some(query), limit).result;
      var rows := ScanPrefix(store, ConversationPrefix);
      StopsAtLimit(rows, NoBreak(SearchStepFn(json, ToLower(query))), OrNumber(limit, 20), r)
      && (|r| < OrNumber(limit, 20) ==> r == Gather(rows, NoBreak(SearchStepFn(json, ToLower(query)))))
      && (forall j :: 0 <= j < |r| ==> 1 <= |r[j].matches| <= MaxMatches && r[j].id.None?)
      && (1 <= OrNumber(limit, 20) ==> |r| <= OrNumber(limit, 20))
  {
    var rows := ScanPrefix(store, ConversationPrefix);
    var u := Until(rows, SearchStepFn(json, ToLower(query)), OrNumber(limit, 20), []);
    assert SearchResponse(store, json, Some(query), limit) == Respond(u, "Error searching conversations");
    UntilSearchShape(json, ToLower(query), OrNumber(limit, 20), rows);
  }

  /** Queries equal up to case answer alike. */
  lemma SearchIgnoresCase(store: Store, json: Json, query1: string, query2: string, limit: Option<int>)
    requires query1 != "" && query2 != "" && ToLower(query1) == ToLower(query2)
    ensures SearchResponse(store, json, Some(query1), limit) == SearchResponse(store, json, Some(query2), limit)
  {
  }

  // ----- get_conversation -----

  /** What get_conversation answers: the summary, or the record as read (`null` when unreadable). */
  datatype Retrieved = SummaryView(summary: IndexSummary) | RecordView(record: Option<Conversation>)

  const IdRequired: string := "Error: composer_id parameter is required"

  function NotFoundText(composerId: string): string
  {
    "Error: Conversation " + composerId + " not found"
  }

  /**
   * get_conversation: refused without an id, and for a missing, empty or 'null' value. A value
   * that does not read as a record summarises to a `TypeError` and prints as `null` in full.
   */
  function GetResponse(store: Store, json: Json, composerId: Option<string>, format: Option<string>): Response<Retrieved>
  {
    if !Truthy(composerId) then Refused(IdRequired)
    else
      var key := MakeConversationKey(composerId.value);
      var value := LookupValue(store, key);
      if Absent(value) then Refused(NotFoundText(composerId.value))
      else
        var conv := ParseConversation(json, key, value);
        if OrString(format, "summary") == "summary" then
          (if conv.None? then Caught("Error retrieving conversation", TypeError)
           else Answer(SummaryView(SummaryOf(conv.value))))
        else Answer(RecordView(conv))
  }

  /** get_conversation as the server runs it. */
  method GetConversation(store: Store, json: Json, composerId: Option<string>, format: Option<string>) returns (r: Response<Retrieved>)
    ensures r == GetResponse(store, json, composerId, format)
  {
    if !Truthy(composerId) {
      return Refused(IdRequired);
    }
    var key := MakeConversationKey(composerId.value);
    var value := LookupValue(store, key);
    if Absent(value) {
      return Refused(NotFoundText(composerId.value));
    }
    var conv := ParseConversation(json, key, value);
    if OrString(format, "summary") == "summary" {
      if conv.None? {
        return Caught("Error retrieving conversation", TypeError);
      }
      var summary := GetConversationSummary(conv.value);
      r := Answer(SummaryView(summary));
    } else {
      r := Answer(RecordView(conv));
    }
  }

  /**
   * The server's get_conversation and the one of src/tools read the same record: where the tool
   * answers it, the server answers it too, without the id the tool adds; where the tool reports
   * the conversation missing, so does the server.
   */
  lemma GetAgreesWithTool(store: Store, json: Json, composerId: string, format: Option<string>)
    requires composerId != ""
    ensures var mine := GetResponse(store, json, Some(composerId), format);
      var tool := ConversationTools.Load(store, json, composerId);
      (tool == Err(ConversationTools.NotFound(composerId)) <==> mine == Refused(NotFoundText(composerId)))
      && (tool.Ok? && OrString(format, "summary") != "summary" ==>
            mine == Answer(RecordView(Some(tool.value.(composerId := None)))))
      && (tool.Ok? && OrString(format, "summary") == "summary" ==>
            mine == Answer(SummaryView(SummaryOf(tool.value.(composerId := None)))))
      && (tool.Err? && tool != Err(ConversationTools.NotFound(composerId)) ==>
            mine == if OrString(format, "summary") == "summary" then Caught("Error retrieving conversation", TypeError)
                    else Answer(RecordView(None)))
  {
  }

  /** Without a format the answer is the summary; with any format but 'summary', the record. */
  lemma GetFormats(store: Store, json: Json, composerId: string, format: string)
    requires composerId != "" && !Absent(LookupValue(store, MakeConversationKey(composerId)))
    requires json.conversation(LookupValue(store, MakeConversationKey(composerId)).value).Value?
    ensures GetResponse(store, json, Some(composerId), None).Answer?
    ensures GetResponse(store, json, Some(composerId), None).result.SummaryView?
    ensures format != "" && format != "summary" ==>
      GetResponse(store, json, Some(composerId), Some(format)) ==
        Answer(RecordView(Some(json.conversation(LookupValue(store, MakeConversationKey(composerId)).value).value.(composerId := None))))
  {
  }

  // ----- search_conversations_advanced -----

  /**
   * The arguments once their defaults are applied. A bound that is `None` is NaN (an unparsable
   * date), which no comparison passes; `maxMessages == None` is `Infinity`.
   */
  datatype AdvancedSettings = AdvancedSettings(
    dateFrom: Option<int>,
    dateTo: Option<int>,
    minMessages: int,
    maxMessages: Option<int>,
    status: string,
    sortBy: string,
    sortOrder: string,
    limit: int)

  /** The defaults of the handler; `now` is the clock's `Date.now()`. */
  function Settings(o: AdvancedOptions, parseDate: DateParser, now: int): (st: AdvancedSettings)
    ensures st.dateFrom == if Truthy(o.dateFrom) then parseDate(o.dateFrom.value) else Some(0)
    ensures st.dateTo == if Truthy(o.dateTo) then parseDate(o.dateTo.value) else Some(now)
    ensures st.maxMessages.Some? <==> Bound(o.maxMessages)
    ensures st.limit == OrNumber(o.limit, 20)
  {
    AdvancedSettings(
      if Truthy(o.dateFrom) then parseDate(o.dateFrom.value) else Some(0),
      if Truthy(o.dateTo) then parseDate(o.dateTo.value) else Some(now),
      OrNumber(o.minMessages, 0),
      if Bound(o.maxMessages) then o.maxMessages else None,
      OrString(o.status, "all"),
      OrString(o.sortBy, "date"),
      OrString(o.sortOrder, "desc"),
      OrNumber(o.limit, 20))
  }

  /** `summary.createdAt || 0` */
  function CreatedOrZero(s: IndexSummary): int
  {
    OrNumber(s.createdAt, 0)
  }

  /** `summary.lastUpdatedAt || createdAt` */
  function UpdatedOrCreated(s: IndexSummary): int
  {
    OrNumber(s.lastUpdatedAt, CreatedOrZero(s))
  }

  /** The chain of `continue` tests: a summary that passes them all is kept. */
  predicate Admits(st: AdvancedSettings, s: IndexSummary)
  {
    var created := CreatedOrZero(s);
    var updated := UpdatedOrCreated(s);
    !((st.dateFrom.Some? && updated < st.dateFrom.value) || (st.dateTo.Some? && created > st.dateTo.value))
    && !(s.messageCount < st.minMessages || (st.maxMessages.Some? && s.messageCount > st.maxMessages.value))
    && !(st.status != "all" && s.status != st.status)
  }

  /**
   * The tests in plain terms: the conversation was last active no earlier than `dateFrom` and
   * created no later than `dateTo` (either test passes when its date is unparsable), its count is
   * within the inclusive bounds, and its status is the one asked for unless that is 'all'.
   */
  lemma AdmitsMeaning(st: AdvancedSettings, s: IndexSummary)
    ensures Admits(st, s) <==>
      (st.dateFrom.Some? ==> st.dateFrom.value <= UpdatedOrCreated(s))
      && (st.dateTo.Some? ==> CreatedOrZero(s) <= st.dateTo.value)
      && st.minMessages <= s.messageCount
      && (st.maxMessages.Some? ==> s.messageCount <= st.maxMessages.value)
      && (st.status == "all" || s.status == st.status)
  {
  }

  /**
   * With no arguments, everything created up to now and active since the epoch is kept, sorted
   * by date, most recent first, 20 at most.
   */
  lemma AdvancedDefaults(parseDate: DateParser, now: int, s: IndexSummary)
    ensures var st := Settings(AdvancedOptions(None, None, None, None, None, None, None, None), parseDate, now);
      st == AdvancedSettings(Some(0), Some(now), 0, None, "all", "date", "desc", 20)
      && (Admits(st, s) <==> 0 <= UpdatedOrCreated(s) && CreatedOrZero(s) <= now)
  {
  }

  /** The row is readable and its summary passes the tests. */
  predicate Qualifies(json: Json, st: AdvancedSettings, row: Row)
  {
    ParseConversation(json, row.key, row.value).Some? && Admits(st, SummaryOf(ParseConversation(json, row.key, row.value).value))
  }

  function QualifiesFn(json: Json, st: AdvancedSettings): Row -> bool
  {
    row => Qualifies(json, st, row)
  }

  /** What one row adds to the results, or the exception it raises: one entry exactly when it qualifies. */
  function AdvancedStep(json: Json, st: AdvancedSettings, row: Row): (r: Result<seq<IndexEntry>>)
    ensures r.Err? ==> r.error == RangeError && Qualifies(json, st, row)
    ensures r.Ok? ==> |r.value| == if Qualifies(json, st, row) then 1 else 0
    ensures r.Ok? && |r.value| == 1 ==>
      var conv := ParseConversation(json, row.key, row.value);
      conv.Some? && Admits(st, SummaryOf(conv.value)) && Drawn(SummaryOf(conv.value), r.value[0])
  {
    match ParseConversation(json, row.key, row.value)
    case None => Ok([])
    case Some(c) =>
      var s := SummaryOf(c);
      if !Admits(st, s) then Ok([])
      else
        match EntryAt(s, Some(CreatedOrZero(s)), Some(UpdatedOrCreated(s)))
        case Err(e) => Err(e)
        case Ok(e) => Ok([e])
  }

  /** The entry shows the summary's count, status and preview, and no conversation id. */
  predicate Drawn(s: IndexSummary, e: IndexEntry)
  {
    e.composerId.None? && e.messageCount == s.messageCount && e.status == s.status && e.preview == s.preview
  }

  function AdvancedStepFn(json: Json, st: AdvancedSettings): Row -> Result<seq<IndexEntry>>
  {
    row => AdvancedStep(json, st, row)
  }

  /** The comparison of the `switch`; an unknown `sortBy` compares nothing. */
  function AdvancedComparison(sortBy: string, a: IndexEntry, b: IndexEntry): int
  {
    if sortBy == "date" then CompareDates(DateKey(a), DateKey(b))
    else if sortBy == "message_count" then a.messageCount - b.messageCount
    else if sortBy == "status" then Compare(a.status, b.status)
    else 0
  }

  /** The comparator handed to `sort`: ascending only for 'asc', descending otherwise. */
  function AdvancedOrder(sortBy: string, sortOrder: string): Comparator<IndexEntry>
  {
    (a: IndexEntry, b: IndexEntry) =>
      if sortOrder == "asc" then AdvancedComparison(sortBy, a, b) else -AdvancedComparison(sortBy, a, b)
  }

  /** Every choice of key and direction is a consistent order, so sorting sorts. */
  lemma AdvancedOrderConsistent(sortBy: string, sortOrder: string, entries: seq<IndexEntry>)
    ensures Consistent(AdvancedOrder(sortBy, sortOrder), entries)
  {
    var cmp := AdvancedOrder(sortBy, sortOrder);
    forall a, b, c | a in entries && b in entries && c in entries && cmp(a, b) <= 0 && cmp(b, c) <= 0
      ensures cmp(a, c) <= 0
    {
      assert cmp(a, b) == if sortOrder == "asc" then AdvancedComparison(sortBy, a, b) else -AdvancedComparison(sortBy, a, b);
      assert cmp(b, c) == if sortOrder == "asc" then AdvancedComparison(sortBy, b, c) else -AdvancedComparison(sortBy, b, c);
      assert cmp(a, c) == if sortOrder == "asc" then AdvancedComparison(sortBy, a, c) else -AdvancedComparison(sortBy, a, c);
      if sortBy == "date" {
        CompareDatesAntisymmetric(DateKey(a), DateKey(b));
        CompareDatesAntisymmetric(DateKey(b), DateKey(c));
        CompareDatesAntisymmetric(DateKey(a), DateKey(c));
        if sortOrder == "asc" {
          CompareDatesTransitive(DateKey(a), DateKey(b), DateKey(c));
        } else {
          CompareDatesTransitive(DateKey(c), DateKey(b), DateKey(a));
        }
      } else if sortBy == "status" {
        CompareAntisymmetric(a.status, b.status);
        CompareAntisymmetric(b.status, c.status);
        CompareAntisymmetric(a.status, c.status);
        if sortOrder == "asc" {
          CompareTransitive(a.status, b.status, c.status);
        } else {
          CompareTransitive(c.status, b.status, a.status);
        }
      }
    }
    forall a, b | a in entries && b in entries && cmp(a, b) >= 0
      ensures cmp(b, a) <= 0
    {
      assert cmp(a, b) == if sortOrder == "asc" then AdvancedComparison(sortBy, a, b) else -AdvancedComparison(sortBy, a, b);
      assert cmp(b, a) == if sortOrder == "asc" then AdvancedComparison(sortBy, b, a) else -AdvancedComparison(sortBy, b, a);
      if sortBy == "date" {
        CompareDatesAntisymmetric(DateKey(a), DateKey(b));
      } else if sortBy == "status" {
        CompareAntisymmetric(a.status, b.status);
      }
    }
  }

  datatype AdvancedPage = AdvancedPage(totalFound: nat, returned: nat, conversations: seq<IndexEntry>)

  /** Sorting what was kept and cutting `slice(0, limit)`. */
  function Rank(st: AdvancedSettings, found: seq<IndexEntry>): (r: AdvancedPage)
    ensures r.totalFound == |found| && r.returned == |r.conversations|
    ensures 0 <= st.limit ==> r.returned == if |found| <= st.limit then |found| else st.limit
    ensures Sorted(AdvancedOrder(st.sortBy, st.sortOrder), r.conversations)
    ensures TopOf(AdvancedOrder(st.sortBy, st.sortOrder), r.conversations, multiset(found))
  {
    var cmp := AdvancedOrder(st.sortBy, st.sortOrder);
    var sorted := Sort(cmp, found);
    AdvancedOrderConsistent(st.sortBy, st.sortOrder, found);
    SortCorrect(cmp, found);
    var page := JsSlice(sorted, 0, st.limit);
    SliceSorted(cmp, sorted, 0, st.limit);
    SlicePrefix(sorted, st.limit);
    SortedPrefixTop(cmp, sorted, SliceIndex(st.limit, |sorted|));
    AdvancedPage(|found|, |page|, page)
  }

  function AdvancedResponse(store: Store, json: Json, parseDate: DateParser, now: int, o: AdvancedOptions): Response<AdvancedPage>
  {
    var st := Settings(o, parseDate, now);
    match Collect(ScanPrefix(store, ConversationPrefix), AdvancedStepFn(json, st))
    case Err(e) => Caught("Error in advanced search", e)
    case Ok(found) => Answer(Rank(st, found))
  }

  /** search_conversations_advanced */
  method SearchAdvanced(store: Store, json: Json, parseDate: DateParser, now: int, o: AdvancedOptions) returns (r: Response<AdvancedPage>)
    ensures r == AdvancedResponse(store, json, parseDate, now, o)
  {
    var st := Settings(o, parseDate, now);
    var rows := ScanPrefix(store, ConversationPrefix);
    var step := AdvancedStepFn(json, st);
    var results: seq<IndexEntry> := [];
    var i := 0;
    while i < |rows|
      invariant 0 <= i <= |rows|
      invariant Collect(rows[..i], step) == Ok(results)
    {
      var items := AdvancedRow(json, st, rows[i]);
      assert step(rows[i]) == items;
      CollectNext(rows, i, step);
      if items.Err? {
        CollectFailureSticks(rows, i + 1, step);
        return Caught("Error in advanced search", items.error);
      }
      results := results + items.value;
      i := i + 1;
    }
    assert rows[..i] == rows;
    r := Answer(Rank(st, results));
  }

  /** The loop body: parse, summarise, apply the tests, and push the entry. */
  method AdvancedRow(json: Json, st: AdvancedSettings, row: Row) returns (r: Result<seq<IndexEntry>>)
    ensures r == AdvancedStep(json, st, row)
  {
    var conv := ParseConversation(json, row.key, row.value);
    if conv.None? {
      return Ok([]);
    }
    var summary := GetConversationSummary(conv.value);
    var createdAt := OrNumber(summary.createdAt, 0);
    var lastUpdatedAt := OrNumber(summary.lastUpdatedAt, createdAt);
    if (st.dateFrom.Some? && lastUpdatedAt < st.dateFrom.value) || (st.dateTo.Some? && createdAt > st.dateTo.value) {
      return Ok([]);
    }
    if summary.messageCount < st.minMessages || (st.maxMessages.Some? && summary.messageCount > st.maxMessages.value) {
      return Ok([]);
    }
    if st.status != "all" && summary.status != st.status {
      return Ok([]);
    }
    var entry := EntryAt(summary, Some(createdAt), Some(lastUpdatedAt));
    if entry.Err? {
      return Err(entry.error);
    }
    r := Ok([entry.value]);
  }

  /** `e` is the entry of `row`: the row is readable and its summary passes the tests and gives `e`. */
  predicate KeptFrom(json: Json, st: AdvancedSettings, row: Row, e: IndexEntry)
  {
    var conv := ParseConversation(json, row.key, row.value);
    conv.Some? && Admits(st, SummaryOf(conv.value)) && Drawn(SummaryOf(conv.value), e)
  }

  /** A row that does not throw adds one entry exactly when it qualifies, and that entry is its own. */
  lemma KeptRow(json: Json, st: AdvancedSettings, row: Row)
    requires AdvancedStepFn(json, st)(row).Ok?
    ensures |AdvancedStepFn(json, st)(row).value| == if Qualifies(json, st, row) then 1 else 0
    ensures forall e :: e in AdvancedStepFn(json, st)(row).value ==> KeptFrom(json, st, row, e)
  {
    assert AdvancedStepFn(json, st)(row) == AdvancedStep(json, st, row);
  }

  /**
   * Every entry kept comes from a readable row whose summary passes the tests, every such row
   * gives an entry, and there are as many entries as such rows.
   */
  lemma KeptAreAdmitted(json: Json, st: AdvancedSettings, rows: seq<Row>)
    requires Collect(rows, AdvancedStepFn(json, st)).Ok?
    ensures forall e :: e in Collect(rows, AdvancedStepFn(json, st)).value ==>
      exists k :: 0 <= k < |rows| && KeptFrom(json, st, rows[k], e)
    ensures forall k :: 0 <= k < |rows| && Qualifies(json, st, rows[k]) ==>
      exists e :: e in Collect(rows, AdvancedStepFn(json, st)).value && KeptFrom(json, st, rows[k], e)
    ensures |Collect(rows, AdvancedStepFn(json, st)).value| == Count(rows, QualifiesFn(json, st))
  {
    var step := AdvancedStepFn(json, st);
    CollectFails(rows, step);
    var plain := (row: Row) => if step(row).Ok? then step(row).value else [];
    CollectWithoutFailure(rows, step, plain);
    forall e: IndexEntry | e in Collect(rows, step).value
      ensures exists k :: 0 <= k < |rows| && KeptFrom(json, st, rows[k], e)
    {
      GatherFrom(rows, plain, e);
      var k :| 0 <= k < |rows| && e in plain(rows[k]);
      KeptRow(json, st, rows[k]);
    }
    forall k | 0 <= k < |rows| && Qualifies(json, st, rows[k])
      ensures exists e :: e in Collect(rows, step).value && KeptFrom(json, st, rows[k], e)
    {
      KeptRow(json, st, rows[k]);
      var e := step(rows[k]).value[0];
      CollectHas(rows, step, k, e);
    }
    forall k | 0 <= k < |rows| && step(rows[k]).Ok?
      ensures |step(rows[k]).value| == (if QualifiesFn(json, st)(rows[k]) then 1 else 0)
    {
      KeptRow(json, st, rows[k]);
    }
    CollectCount(rows, step, QualifiesFn(json, st));
  }

  /**
   * The advanced search fails only with `RangeError`. Otherwise it reports how many conversations
   * passed the tests, and answers at most `limit` of them, sorted by the requested key and
   * direction, each from a readable conversation that passed.
   */
  lemma AdvancedShape(store: Store, json: Json, parseDate: DateParser, now: int, o: AdvancedOptions)
    ensures AdvancedResponse(store, json, parseDate, now, o).Caught? ==> AdvancedResponse(store, json, parseDate, now, o).error == RangeError
    ensures !AdvancedResponse(store, json, parseDate, now, o).Refused?
    ensures AdvancedResponse(store, json, parseDate, now, o).Answer? ==>
      (var st := Settings(o, parseDate, now);
       var found := Collect(ScanPrefix(store, ConversationPrefix), AdvancedStepFn(json, st)).value;
       var page := AdvancedResponse(store, json, parseDate, now, o).result;
       page.totalFound == |found| == Count(ScanPrefix(store, ConversationPrefix), QualifiesFn(json, st))
       && page.returned == |page.conversations|
       && (0 <= st.limit && |found| <= st.limit ==> multiset(page.conversations) == multiset(found))
       && (0 <= st.limit ==> page.returned == if |found| <= st.limit then |found| else st.limit)
       && multiset(page.conversations) <= multiset(found)
       && Sorted(AdvancedOrder(st.sortBy, st.sortOrder), page.conversations)
       && TopOf(AdvancedOrder(st.sortBy, st.sortOrder), page.conversations, multiset(found)))
  {
    var st := Settings(o, parseDate, now);
    var rows := ScanPrefix(store, ConversationPrefix);
    var step := AdvancedStepFn(json, st);
    CollectFails(rows, step);
    if Collect(rows, step).Ok? {
      var found := Collect(rows, step).value;
      var sorted := Sort(AdvancedOrder(st.sortBy, st.sortOrder), found);
      KeptAreAdmitted(json, st, rows);
      if 0 <= st.limit && |found| <= st.limit {
        assert JsSlice(sorted, 0, st.limit) == sorted[0..|sorted|] == sorted;
      }
    } else {
      var k :| 0 <= k < |rows| && step(rows[k]) == Err(Collect(rows, step).error);
      assert step(rows[k]) == AdvancedStep(json, st, rows[k]);
    }
  }
}
