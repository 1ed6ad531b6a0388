/**
 * searchConversations of src/lib/searchConversations.ts: the free-text search over the rows read
 * with the throwing parseConversation and summarised by the src/lib summariser.
 */
module LibSearch {
  import opened Wrappers
  import opened Text
  import opened Records
  import opened Keys
  import opened Summaries
  import opened Scans
  import opened QueryRules
  import LibSummary

  /** What one row does: skipped with nothing to decode, checked against the limit once parsed. */
  function Step(store: Store, json: Json, lowerQuery: string, row: Row): (r: Outcome<SearchResult>)
    ensures r.Fail? <==> LibSummary.ParseConversation(json, row.key, row.value).Err?
    ensures r.Skip? <==> LibSummary.ParseConversation(json, row.key, row.value) == Ok(None)
  {
    match LibSummary.ParseConversation(json, row.key, row.value)
    case Err(e) => Fail(e)
    case Ok(None) => Skip
    case Ok(Some(c)) => Checked(SearchHit(c.composerId, c, LibSummary.SummaryOf(c, Some(DbFetch(store, json))), lowerQuery))
  }

  function StepFn(store: Store, json: Json, lowerQuery: string): Row -> Outcome<SearchResult>
  {
    row => Step(store, json, lowerQuery, row)
  }

  /** The search over a sequence of rows, with the limit defaulting to 20. */
  function SearchRows(store: Store, json: Json, query: string, limit: Option<int>, rows: seq<Row>): Result<seq<SearchResult>>
  {
    Until(rows, StepFn(store, json, ToLower(query)), limit.GetOr(20), [])
  }

  /** searchConversations */
  method SearchConversations(store: Store, json: Json, query: string, limit: Option<int>) returns (r: Result<seq<SearchResult>>)
    ensures r == SearchRows(store, json, query, limit, ScanPrefix(store, ConversationPrefix))
  {
    var rows := ScanPrefix(store, ConversationPrefix);
    var lowerQuery := ToLower(query);
    var max := limit.GetOr(20);
    var step := StepFn(store, json, lowerQuery);
    var results: seq<SearchResult> := [];
    var i := 0;
    while i < |rows|
      invariant 0 <= i <= |rows|
      invariant Until(rows[i..], step, max, results) == Until(rows, step, max, [])
    {
      var outcome := SearchRow(store, json, lowerQuery, rows[i]);
      assert step(rows[i]) == outcome;
      UntilNext(rows, i, step, max, results);
      if outcome.Fail? {
        return Err(outcome.error);
      }
      if outcome.Checked? {
        results := results + outcome.items;
        if |results| >= max {
          return Ok(results);
        }
      }
      i := i + 1;
    }
    r := Ok(results);
  }

  /** The loop body: parse the row (which may throw), summarise it and collect its matches. */
  method SearchRow(store: Store, json: Json, lowerQuery: string, row: Row) returns (r: Outcome<SearchResult>)
    ensures r == Step(store, json, lowerQuery, row)
  {
    match LibSummary.ParseConversation(json, row.key, row.value) {
      case Err(e) =>
        return Fail(e);
      case Ok(None) =>
        return Skip;
      case Ok(Some(c)) =>
        var s := LibSummary.GetConversationSummary(c, Some(DbFetch(store, json)));
        return Checked(SearchHit(c.composerId, c, s, lowerQuery));
    }
  }

  /**
   * A search that throws raises the exception of one conversation row whose value is malformed
   * JSON or the JSON `null`; with no such row it succeeds.
   */
  lemma SearchFails(store: Store, json: Json, query: string, limit: Option<int>, rows: seq<Row>)
    ensures SearchRows(store, json, query, limit, rows).Err? ==>
      exists k :: 0 <= k < |rows| && Truthy(rows[k].value)
        && (json.conversation(rows[k].value.value).Malformed? || json.conversation(rows[k].value.value).JsonNull?)
    ensures (forall k :: 0 <= k < |rows| && Truthy(rows[k].value) ==> json.conversation(rows[k].value.value).Value?) ==>
      SearchRows(store, json, query, limit, rows).Ok?
  {
    var step := StepFn(store, json, ToLower(query));
    if SearchRows(store, json, query, limit, rows).Err? {
      UntilFails(rows, step, limit.GetOr(20), []);
    }
    if forall k :: 0 <= k < |rows| && Truthy(rows[k].value) ==> json.conversation(rows[k].value.value).Value? {
      assert forall k :: 0 <= k < |rows| ==> !step(rows[k]).Fail?;
      UntilSucceeds(rows, step, limit.GetOr(20), []);
    }
  }

  /**
   * A search that succeeds keeps row order and holds the results of the first rows, stopping early
   * only once it holds `limit` results, so fewer than `limit` results are those of every row;
   * each result carries one to three matches, and with a positive limit there are at most `limit`.
   */
  lemma SearchShape(store: Store, json: Json, query: string, limit: Option<int>, rows: seq<Row>)
    requires SearchRows(store, json, query, limit, rows).Ok?
    ensures var r := SearchRows(store, json, query, limit, rows).value;
      StopsAtLimit(rows, NoBreak(StepFn(store, json, ToLower(query))), limit.GetOr(20), r)
      && (|r| < limit.GetOr(20) ==> r == Gather(rows, NoBreak(StepFn(store, json, ToLower(query)))))
      && (forall j :: 0 <= j < |r| ==> 1 <= |r[j].matches| <= MaxMatches)
      && (1 <= limit.GetOr(20) ==> |r| <= limit.GetOr(20))
  {
    ResultsFromPrefix(store, json, ToLower(query), limit.GetOr(20), rows);
    if 1 <= limit.GetOr(20) {
      ResultsBound(store, json, ToLower(query), limit.GetOr(20), rows);
    }
  }

  /** One row's items: a single result carrying one to three matches. */
  lemma SearchItems(store: Store, json: Json, lowerQuery: string, row: Row, x: SearchResult)
    requires x in NoBreak(StepFn(store, json, lowerQuery))(row)
    ensures 1 <= |x.matches| <= MaxMatches
  {
    assert NoBreak(StepFn(store, json, lowerQuery))(row) == Items(Step(store, json, lowerQuery, row));
  }

  lemma ResultsFromPrefix(store: Store, json: Json, lowerQuery: string, max: int, rows: seq<Row>)
    requires Until(rows, StepFn(store, json, lowerQuery), max, []).Ok?
    ensures var r := Until(rows, StepFn(store, json, lowerQuery), max, []).value;
      StopsAtLimit(rows, NoBreak(StepFn(store, json, lowerQuery)), max, r)
      && (|r| < max ==> r == Gather(rows, NoBreak(StepFn(store, json, lowerQuery))))
      && (forall j :: 0 <= j < |r| ==> 1 <= |r[j].matches| <= MaxMatches)
  {
    var step := StepFn(store, json, lowerQuery);
    UntilStops(rows, step, max);
    var r := Until(rows, step, max, []).value;
    var n :| 0 <= n <= |rows| && r == Gather(rows[..n], NoBreak(step));
    forall j | 0 <= j < |r| ensures 1 <= |r[j].matches| <= MaxMatches {
      GatherFrom(rows[..n], NoBreak(step), r[j]);
      var k :| 0 <= k < |rows[..n]| && r[j] in NoBreak(step)(rows[..n][k]);
      SearchItems(store, json, lowerQuery, rows[..n][k], r[j]);
    }
  }

  lemma ResultsBound(store: Store, json: Json, lowerQuery: string, max: int, rows: seq<Row>)
    requires 1 <= max && Until(rows, StepFn(store, json, lowerQuery), max, []).Ok?
    ensures |Until(rows, StepFn(store, json, lowerQuery), max, []).value| <= max
  {
    var step := StepFn(store, json, lowerQuery);
    forall k | 0 <= k < |rows| ensures |Items(step(rows[k]))| <= 1 {
      assert step(rows[k]) == Step(store, json, lowerQuery, rows[k]);
    }
    UntilBound(rows, step, max, []);
  }
}
