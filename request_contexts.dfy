/**
 * The request-context tools of src/tools/get-request-context.ts: listRequestContexts,
 * getRequestContext and getRequestContextStats. They read the context family of the context tools.
 */
module RequestContextTools {
  import opened Wrappers
  import opened Text
  import opened Records
  import opened Keys
  import opened Scans
  import opened ToolCommon
  import SnapshotTools
  import ContextTools

  // ----- listRequestContexts -----

  /** A collected row: its id and the parsed value, `None` for the JSON `null`. */
  datatype Collected = Collected(contextId: string, data: Option<RequestContext>)

  /** What the collecting loop keeps of a row: everything that parses, the JSON `null` included. */
  function Step(json: Json, row: Row): (r: seq<Collected>)
    ensures |r| <= 1
  {
    if Absent(row.value) then []
    else
      match json.context(row.value.value)
      case Malformed => []
      case JsonNull => [Collected(SnapshotTools.IdFromKey(row.key), None)]
      case Value(c) => [Collected(SnapshotTools.IdFromKey(row.key), Some(c))]
  }

  function StepFn(json: Json): Row -> seq<Collected>
  {
    row => Step(json, row)
  }

  predicate HasNull(entries: seq<Collected>)
  {
    exists k :: 0 <= k < |entries| && entries[k].data.None?
  }

  /** The `contexts.map(...)` of the return statement: a collected `null` throws `TypeError`. */
  function ProjectAll(entries: seq<Collected>): (r: Result<seq<ContextTools.ContextSummary>>)
    ensures r.Err? <==> HasNull(entries)
    ensures r.Err? ==> r.error == TypeError
    ensures r.Ok? ==> (|r.value| == |entries|
      && forall k :: 0 <= k < |entries| ==> r.value[k] == ContextTools.Project(entries[k].contextId, entries[k].data.value))
  {
    if HasNull(entries) then Err(TypeError)
    else Ok(seq(|entries|, k requires 0 <= k < |entries| => ContextTools.Project(entries[k].contextId, entries[k].data.value)))
  }

  datatype RequestContextList = RequestContextList(composerId: string, count: nat, contexts: seq<ContextTools.ContextSummary>)

  function Listing(store: Store, json: Json, composerId: string, limit: Option<int>): Result<RequestContextList>
  {
    var entries := Gather(ContextTools.ListedRows(store, composerId, limit), StepFn(json));
    match ProjectAll(entries)
    case Err(e) => Err(e)
    case Ok(contexts) => Ok(RequestContextList(composerId, |entries|, contexts))
  }

  /** listRequestContexts */
  method ListRequestContexts(store: Store, json: Json, composerId: string, limit: Option<int>) returns (r: Result<RequestContextList>)
    ensures r == Listing(store, json, composerId, limit)
  {
    var rows := ContextTools.ListedRows(store, composerId, limit);
    var entries: seq<Collected> := [];
    var i := 0;
    while i < |rows|
      invariant 0 <= i <= |rows|
      invariant entries == Gather(rows[..i], StepFn(json))
    {
      var entry := CollectRow(json, rows[i]);
      GatherNext(rows, i, StepFn(json));
      entries := entries + entry;
      i := i + 1;
    }
    assert rows[..i] == rows;
    var projected := ProjectEntries(entries);
    match projected {
      case Err(e) => r := Err(e);
      case Ok(contexts) => r := Ok(RequestContextList(composerId, |entries|, contexts));
    }
  }

  /** The loop body: keep the id and whatever the value parses to, the JSON `null` included. */
  method CollectRow(json: Json, row: Row) returns (entry: seq<Collected>)
    ensures entry == StepFn(json)(row)
  {
    entry := [];
    if !Absent(row.value) {
      var contextId := SnapshotTools.IdFromKey(row.key);
      match json.context(row.value.value) {
        case Malformed =>
        case JsonNull =>
          entry := [Collected(contextId, None)];
        case Value(data) =>
          entry := [Collected(contextId, Some(data))];
      }
    }
  }

  method ProjectEntries(entries: seq<Collected>) returns (r: Result<seq<ContextTools.ContextSummary>>)
    ensures r == ProjectAll(entries)
  {
    var out: seq<ContextTools.ContextSummary> := [];
    var j := 0;
    while j < |entries|
      invariant 0 <= j <= |entries|
      invariant forall k :: 0 <= k < j ==> entries[k].data.Some?
      invariant out == seq(j, k requires 0 <= k < j => ContextTools.Project(entries[k].contextId, entries[k].data.value))
    {
      var e := entries[j];
      if e.data.None? {
        return Err(TypeError);
      }
      out := out + [ContextTools.Project(e.contextId, e.data.value)];
      j := j + 1;
    }
    r := Ok(out);
  }

  /**
   * Without a JSON `null` among the listed rows, listRequestContexts answers what listContexts
   * answers; with one, it throws `TypeError` where listContexts skips the row.
   */
  lemma AgreesWithListContexts(store: Store, json: Json, composerId: string, limit: Option<int>)
    ensures var rows := ContextTools.ListedRows(store, composerId, limit);
      var l := Listing(store, json, composerId, limit);
      var nulls := exists k :: 0 <= k < |rows| && !Absent(rows[k].value) && json.context(rows[k].value.value).JsonNull?;
      (nulls <==> l == Err(TypeError))
      && (!nulls ==> l.Ok? && l.value.contexts == Gather(rows, ContextTools.StepFn(json)) && l.value.count == |l.value.contexts|)
  {
    var rows := ContextTools.ListedRows(store, composerId, limit);
    SameContexts(rows, json);
  }

  lemma SameContexts(rows: seq<Row>, json: Json)
    ensures var entries := Gather(rows, StepFn(json));
      (HasNull(entries) <==> exists k :: 0 <= k < |rows| && !Absent(rows[k].value) && json.context(rows[k].value.value).JsonNull?)
      && (!HasNull(entries) ==> ProjectAll(entries) == Ok(Gather(rows, ContextTools.StepFn(json))))
  {
    NullsFromRows(rows, json);
    if !HasNull(Gather(rows, StepFn(json))) {
      SameProjection(rows, json);
    }
  }

  /** A row is collected as a `null` exactly when its value is the JSON `null`. */
  predicate NullRow(json: Json, row: Row)
  {
    !Absent(row.value) && json.context(row.value.value).JsonNull?
  }

  lemma NullsJoin(a: seq<Collected>, b: seq<Collected>)
    ensures HasNull(a + b) <==> HasNull(a) || HasNull(b)
  {
    if HasNull(a + b) {
      var j :| 0 <= j < |a + b| && (a + b)[j].data.None?;
      if j >= |a| {
        assert b[j - |a|] == (a + b)[j];
      }
    }
    if HasNull(a) {
      var j :| 0 <= j < |a| && a[j].data.None?;
      assert (a + b)[j] == a[j];
    }
    if HasNull(b) {
      var j :| 0 <= j < |b| && b[j].data.None?;
      assert (a + b)[|a| + j] == b[j];
    }
  }

  lemma {:induction false} NullsFromRows(rows: seq<Row>, json: Json)
    ensures HasNull(Gather(rows, StepFn(json))) <==> exists k :: 0 <= k < |rows| && NullRow(json, rows[k])
  {
    if |rows| > 0 {
      var init := rows[..|rows| - 1];
      var row := rows[|rows| - 1];
      NullsFromRows(init, json);
      assert Gather(rows, StepFn(json)) == Gather(init, StepFn(json)) + Step(json, row);
      NullsJoin(Gather(init, StepFn(json)), Step(json, row));
      RowStep(json, row);
      if exists k :: 0 <= k < |rows| && NullRow(json, rows[k]) {
        var k :| 0 <= k < |rows| && NullRow(json, rows[k]);
        if k < |init| {
          assert init[k] == rows[k];
        }
      }
      if exists k :: 0 <= k < |init| && NullRow(json, init[k]) {
        var k :| 0 <= k < |init| && NullRow(json, init[k]);
        assert rows[k] == init[k];
      }
    }
  }

  /** One row: collected as a `null` exactly for the JSON `null`, and projected as listContexts does otherwise. */
  lemma RowStep(json: Json, row: Row)
    ensures HasNull(Step(json, row)) <==> NullRow(json, row)
    ensures !NullRow(json, row) ==> ProjectAll(Step(json, row)) == Ok(ContextTools.Step(json, row))
  {
    if !Absent(row.value) {
      match json.context(row.value.value)
      case Malformed =>
      case JsonNull =>
        assert Step(json, row)[0].data.None?;
      case Value(c) =>
        var p := ContextTools.Project(SnapshotTools.IdFromKey(row.key), c);
        assert Step(json, row) == [Collected(SnapshotTools.IdFromKey(row.key), Some(c))];
        assert ContextTools.Step(json, row) == [p];
        assert !HasNull(Step(json, row));
        assert ProjectAll(Step(json, row)).value == [p];
    }
  }

  lemma ProjectJoin(a: seq<Collected>, b: seq<Collected>)
    requires !HasNull(a + b)
    ensures !HasNull(a) && !HasNull(b)
    ensures ProjectAll(a + b).value == ProjectAll(a).value + ProjectAll(b).value
  {
    NullsJoin(a, b);
  }

  lemma {:induction false} SameProjection(rows: seq<Row>, json: Json)
    requires !HasNull(Gather(rows, StepFn(json)))
    ensures ProjectAll(Gather(rows, StepFn(json))) == Ok(Gather(rows, ContextTools.StepFn(json)))
  {
    if |rows| > 0 {
      var init := rows[..|rows| - 1];
      var row := rows[|rows| - 1];
      assert Gather(rows, StepFn(json)) == Gather(init, StepFn(json)) + Step(json, row);
      ProjectJoin(Gather(init, StepFn(json)), Step(json, row));
      SameProjection(init, json);
      RowStep(json, row);
    }
  }

  // ----- getRequestContext -----

  /**
   * getRequestContext: the stored record as parsed. A missing, empty or 'null' value throws the
   * not-found error and malformed JSON `SyntaxError`; the JSON `null` is returned as `null`.
   */
  function GetRequestContext(store: Store, json: Json, composerId: string, contextId: string): (r: Result<Option<RequestContext>>)
    ensures var v := LookupValue(store, MakeContextKey(composerId, contextId));
      (Absent(v) <==> r == Err(NotFound("Request context", contextId, composerId)))
      && (!Absent(v) ==> match json.context(v.value)
                         case Malformed => r == Err(SyntaxError)
                         case JsonNull => r == Ok(None)
                         case Value(c) => r == Ok(Some(c)))
  {
    var v := LookupValue(store, ContextPrefix + composerId + ":" + contextId);
    if Absent(v) then Err(NotFound("Request context", contextId, composerId))
    else
      match json.context(v.value)
      case Malformed => Err(SyntaxError)
      case JsonNull => Ok(None)
      case Value(c) => Ok(Some(c))
  }

  /**
   * getRequestContext reads the row getContext reads: where getContext succeeds, the raw record
   * holds the same git status and, once absent arrays are read as `[]`, the same arrays.
   */
  lemma AgreesWithGetContext(store: Store, json: Json, composerId: string, contextId: string)
    ensures var full := ContextTools.GetContext(store, json, composerId, contextId);
      var raw := GetRequestContext(store, json, composerId, contextId);
      (full.Ok? ==> raw.Ok? && raw.value.Some? && full.value == ContextTools.Full(contextId, raw.value.value))
      && (raw.Err? ==> full.Err?)
  {
  }

  // ----- getRequestContextStats -----

  datatype RequestContextStats = RequestContextStats(totalContextRecords: nat, sampleSize: nat, sampleBreakdown: ContextTools.Breakdown)

  /** getRequestContextStats: the context statistics, under the request-context names. */
  method GetRequestContextStats(store: Store, json: Json) returns (r: RequestContextStats)
    ensures var s := ContextTools.StatsOf(store, json);
      r == RequestContextStats(s.totalContexts, s.sampleSize, s.sampleBreakdown)
  {
    var s := ContextTools.GetContextStats(store, json);
    r := RequestContextStats(s.totalContexts, s.sampleSize, s.sampleBreakdown);
  }
}
