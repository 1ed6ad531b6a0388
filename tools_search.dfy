/**
 * searchConversations of src/tools/search-conversations.ts. The summariser receives the stored
 * record with `conversationId` added, so the fetch sees the record's own `composerId`.
 */
module ToolsSearch {
  import opened Wrappers
  import opened Text
  import opened Records
  import opened Keys
  import opened Summaries
  import opened Scans
  import opened QueryRules
  import ToolsSummary

  /** `{ ...parsed, conversationId }`: the JSON `null` spreads to a record holding only the id. */
  function WithConversationId(parsed: Parsed<Conversation>, id: string): (r: Option<Conversation>)
    ensures parsed.Malformed? <==> r.None?
    ensures parsed.JsonNull? ==> r == Some(EmptyConversation.(conversationId := Some(id)))
    ensures parsed.Value? ==> r == Some(parsed.value.(conversationId := Some(id)))
  {
    match parsed
    case Malformed => None
    case JsonNull => Some(EmptyConversation.(conversationId := Some(id)))
    case Value(c) => Some(c.(conversationId := Some(id)))
  }

  /**
   * What one row does: skipped when its value is missing, empty, 'null' or malformed; otherwise
   * its result (if any message matches) is pushed and the limit is tested.
   */
  function Step(store: Store, json: Json, lowerQuery: string, row: Row): Outcome<SearchResult>
  {
    if Absent(row.value) then Skip
    else
      var id := SliceFrom(row.key, |ConversationPrefix|);
      match WithConversationId(json.conversation(row.value.value), id)
      case None => Skip
      case Some(c) => Checked(SearchHit(Some(id), c, ToolsSummary.SummaryOf(c, Some(DbFetch(store, json))), lowerQuery))
  }

  function StepFn(store: Store, json: Json, lowerQuery: string): Row -> Outcome<SearchResult>
  {
    row => Step(store, json, lowerQuery, row)
  }

  /** The search over a sequence of rows, with the limit defaulting to 20. */
  function SearchRows(store: Store, json: Json, query: string, limit: Option<int>, rows: seq<Row>): Result<seq<SearchResult>>
  {
    Until(rows, StepFn(store, json, ToLower(query)), limit.GetOr(20), [])
  }

  /** searchConversations */
  method SearchConversations(store: Store, json: Json, query: string, limit: Option<int>) returns (results: seq<SearchResult>)
    ensures SearchRows(store, json, query, limit, ScanPrefix(store, ConversationPrefix)) == Ok(results)
  {
    var rows := ScanPrefix(store, ConversationPrefix);
    var lowerQuery := ToLower(query);
    var max := limit.GetOr(20);
    var step := StepFn(store, json, lowerQuery);
    results := [];
    var i := 0;
    while i < |rows|
      invariant 0 <= i <= |rows|
      invariant Until(rows[i..], step, max, results) == Until(rows, step, max, [])
    {
      var row := rows[i];
      assert rows[i..][0] == row && rows[i..][1..] == rows[i + 1..];
      var outcome := SearchRow(store, json, lowerQuery, row);
      assert step(row) == outcome;
      if outcome.Checked? {
        results := results + outcome.items;
        if |results| >= max {
          return;
        }
      }
      i := i + 1;
    }
  }

  /** The loop body: add the conversation id, summarise the record and collect its matches. */
  method SearchRow(store: Store, json: Json, lowerQuery: string, row: Row) returns (r: Outcome<SearchResult>)
    ensures r == Step(store, json, lowerQuery, row)
  {
    if Absent(row.value) {
      return Skip;
    }
    var id := SliceFrom(row.key, |ConversationPrefix|);
    var record := WithConversationId(json.conversation(row.value.value), id);
    if record.None? {
      return Skip;
    }
    var s := ToolsSummary.GetConversationSummary(record.value, Some(DbFetch(store, json)));
    r := Checked(SearchHit(Some(id), record.value, s, lowerQuery));
  }

  /** Searching for queries equal up to case gives the same results ('THE' and 'the' alike). */
  lemma CaseInsensitiveSearch(store: Store, json: Json, query1: string, query2: string, limit: Option<int>, rows: seq<Row>)
    requires ToLower(query1) == ToLower(query2)
    ensures SearchRows(store, json, query1, limit, rows) == SearchRows(store, json, query2, limit, rows)
  {
  }

  /** One row's items: a single result carrying one to three matches. */
  lemma SearchItems(store: Store, json: Json, lowerQuery: string, row: Row, x: SearchResult)
    requires x in NoBreak(StepFn(store, json, lowerQuery))(row)
    ensures 1 <= |x.matches| <= MaxMatches
  {
    assert NoBreak(StepFn(store, json, lowerQuery))(row) == Items(Step(store, json, lowerQuery, row));
  }

  /**
   * The search never throws. It keeps row order and holds the results of the first rows, stopping
   * early only once it holds `limit` results, so fewer than `limit` results are those of every
   * row; each result carries one to three matches, and with a positive limit there are at most
   * `limit` results.
   */
  lemma SearchShape(store: Store, json: Json, query: string, limit: Option<int>, rows: seq<Row>)
    ensures SearchRows(store, json, query, limit, rows).Ok?
    ensures var r := SearchRows(store, json, query, limit, rows).value;
      StopsAtLimit(rows, NoBreak(StepFn(store, json, ToLower(query))), limit.GetOr(20), r)
      && (|r| < limit.GetOr(20) ==> r == Gather(rows, NoBreak(StepFn(store, json, ToLower(query)))))
      && (forall j :: 0 <= j < |r| ==> 1 <= |r[j].matches| <= MaxMatches)
      && (1 <= limit.GetOr(20) ==> |r| <= limit.GetOr(20))
  {
    var step := StepFn(store, json, ToLower(query));
    UntilSucceeds(rows, step, limit.GetOr(20), []);
    ResultsFromPrefix(store, json, ToLower(query), limit.GetOr(20), rows);
    if 1 <= limit.GetOr(20) {
      ResultsBound(store, json, ToLower(query), limit.GetOr(20), rows);
    }
  }

  lemma ResultsFromPrefix(store: Store, json: Json, lowerQuery: string, max: int, rows: seq<Row>)
    requires Until(rows, StepFn(store, json, lowerQuery), max, []).Ok?
    ensures var r := Until(rows, StepFn(store, json, lowerQuery), max, []).value;
      StopsAtLimit(rows, NoBreak(StepFn(store, json, lowerQuery)), max, r)
      && (|r| < max ==> r == Gather(rows, NoBreak(StepFn(store, json, lowerQuery))))
      && (forall j :: 0 <= j < |r| ==> 1 <= |r[j].matches| <= MaxMatches)
  {
    var step := StepFn(store, json, lowerQuery);
    UntilStops(rows, step, max);
    var r := Until(rows, step, max, []).value;
    var n :| 0 <= n <= |rows| && r == Gather(rows[..n], NoBreak(step));
    forall j | 0 <= j < |r| ensures 1 <= |r[j].matches| <= MaxMatches {
      GatherFrom(rows[..n], NoBreak(step), r[j]);
      var k :| 0 <= k < |rows[..n]| && r[j] in NoBreak(step)(rows[..n][k]);
      SearchItems(store, json, lowerQuery, rows[..n][k], r[j]);
    }
  }

  lemma ResultsBound(store: Store, json: Json, lowerQuery: string, max: int, rows: seq<Row>)
    requires 1 <= max && Until(rows, StepFn(store, json, lowerQuery), max, []).Ok?
    ensures |Until(rows, StepFn(store, json, lowerQuery), max, []).value| <= max
  {
    var step := StepFn(store, json, lowerQuery);
    forall k | 0 <= k < |rows| ensures |Items(step(rows[k]))| <= 1 {
      assert step(rows[k]) == Step(store, json, lowerQuery, rows[k]);
    }
    UntilBound(rows, step, max, []);
  }
}
