/** The context tools of src/tools/context.ts: listContexts, getContext and getContextStats. */
module ContextTools {
  import opened Wrappers
  import opened Text
  import opened Records
  import opened Keys
  import opened Scans
  import opened ToolCommon
  import SnapshotTools

  /** The default size of a listing, and the size of the statistics sample. */
  const ListLimit: int := 50
  const StatsSample: int := 50

  // ----- listContexts -----

  /** The projection of a context in the listing. */
  datatype ContextSummary = ContextSummary(
    contextId: string,
    hasGitStatus: bool,
    gitStatusPreview: Option<string>,
    cursorRulesCount: nat,
    todosCount: nat,
    projectLayoutsCount: nat,
    terminalFilesCount: nat)

  /** `gitStatusRaw?.substring(0, 200) || null` */
  function GitStatusPreview(gitStatusRaw: Option<string>): (r: Option<string>)
    ensures r.Some? <==> Truthy(gitStatusRaw)
    ensures r.Some? ==> r.value != "" && |r.value| <= PreviewLength && StartsWith(gitStatusRaw.value, r.value)
    ensures r.Some? && |gitStatusRaw.value| <= PreviewLength ==> r.value == gitStatusRaw.value
  {
    if Truthy(gitStatusRaw) then Some(Take(gitStatusRaw.value, PreviewLength)) else None
  }

  function Project(id: string, c: RequestContext): (r: ContextSummary)
    ensures r.contextId == id
    ensures r.hasGitStatus <==> Truthy(c.gitStatusRaw)
    ensures r.hasGitStatus <==> r.gitStatusPreview.Some?
    ensures c.cursorRules.None? ==> r.cursorRulesCount == 0
    ensures c.todos.None? ==> r.todosCount == 0
    ensures c.projectLayouts.None? ==> r.projectLayoutsCount == 0
    ensures c.terminalFiles.None? ==> r.terminalFilesCount == 0
    ensures r.cursorRulesCount == LengthOr0(c.cursorRules) && r.todosCount == LengthOr0(c.todos)
    ensures r.projectLayoutsCount == LengthOr0(c.projectLayouts) && r.terminalFilesCount == LengthOr0(c.terminalFiles)
  {
    ContextSummary(id, Truthy(c.gitStatusRaw), GitStatusPreview(c.gitStatusRaw), LengthOr0(c.cursorRules),
                   LengthOr0(c.todos), LengthOr0(c.projectLayouts), LengthOr0(c.terminalFiles))
  }

  /**
   * What one row adds: skipped when missing, empty, 'null' or malformed, and for the JSON `null`,
   * whose `gitStatusRaw` cannot be read.
   */
  function Step(json: Json, row: Row): (r: seq<ContextSummary>)
    ensures |r| <= 1
  {
    if Absent(row.value) then []
    else
      match json.context(row.value.value)
      case Value(c) => [Project(SnapshotTools.IdFromKey(row.key), c)]
      case _ => []
  }

  function StepFn(json: Json): Row -> seq<ContextSummary>
  {
    row => Step(json, row)
  }

  function ListedRows(store: Store, conversationId: string, limit: Option<int>): seq<Row>
  {
    FirstRows(store, OwnedPrefix(ContextPrefix, conversationId), limit.GetOr(ListLimit))
  }

  datatype ContextList = ContextList(conversationId: string, count: nat, contexts: seq<ContextSummary>)

  /** listContexts */
  method ListContexts(store: Store, json: Json, conversationId: string, limit: Option<int>) returns (r: ContextList)
    ensures r.conversationId == conversationId
    ensures r.contexts == Gather(ListedRows(store, conversationId, limit), StepFn(json))
    ensures r.count == |r.contexts|
  {
    var rows := ListedRows(store, conversationId, limit);
    var contexts: seq<ContextSummary> := [];
    var i := 0;
    while i < |rows|
      invariant 0 <= i <= |rows|
      invariant contexts == Gather(rows[..i], StepFn(json))
    {
      var entry := ListRow(json, rows[i]);
      GatherNext(rows, i, StepFn(json));
      contexts := contexts + entry;
      i := i + 1;
    }
    assert rows[..i] == rows;
    r := ContextList(conversationId, |contexts|, contexts);
  }

  /** The body of the listing loop for one row. */
  method ListRow(json: Json, row: Row) returns (entry: seq<ContextSummary>)
    ensures entry == StepFn(json)(row)
  {
    entry := [];
    if !Absent(row.value) {
      var contextId := SnapshotTools.IdFromKey(row.key);
      match json.context(row.value.value) {
        case Value(data) =>
          entry := [Project(contextId, data)];
        case _ =>
      }
    }
  }

  /**
   * A listing holds at most `limit` contexts, and each comes from a row of the conversation whose
   * value decodes to that context.
   */
  lemma ListShape(store: Store, json: Json, conversationId: string, limit: Option<int>)
    ensures var l := Gather(ListedRows(store, conversationId, limit), StepFn(json));
      (0 <= limit.GetOr(ListLimit) ==> |l| <= limit.GetOr(ListLimit))
      && forall s :: s in l ==> exists row :: (row in store && StartsWith(row.key, OwnedPrefix(ContextPrefix, conversationId))
                                       && Decoded(json, row).Some? && s == Project(SnapshotTools.IdFromKey(row.key), Decoded(json, row).value))
  {
    var rows := ListedRows(store, conversationId, limit);
    GatherAtMostOne(rows, StepFn(json));
    forall s | s in Gather(rows, StepFn(json))
      ensures exists row :: (row in store && StartsWith(row.key, OwnedPrefix(ContextPrefix, conversationId))
                       && Decoded(json, row).Some? && s == Project(SnapshotTools.IdFromKey(row.key), Decoded(json, row).value))
    {
      GatherFrom(rows, StepFn(json), s);
      var k :| 0 <= k < |rows| && s in StepFn(json)(rows[k]);
      var all := ScanPrefix(store, OwnedPrefix(ContextPrefix, conversationId));
      assert rows[k] == all[k];
      assert s in Step(json, rows[k]);
    }
  }

  // ----- getContext -----

  /** The full context: the stored arrays, each `[]` when absent, and the raw git status. */
  datatype MessageContext = MessageContext(
    contextId: string,
    terminalFiles: seq<Item>,
    cursorRules: seq<Item>,
    attachedFoldersListDirResults: seq<Item>,
    summarizedComposers: seq<Item>,
    gitStatus: Option<string>,
    todos: seq<Item>,
    projectLayouts: seq<Item>)

  function Full(contextId: string, c: RequestContext): (m: MessageContext)
    ensures m.contextId == contextId && m.gitStatus == c.gitStatusRaw
    ensures m.cursorRules == c.cursorRules.GetOr([]) && m.todos == c.todos.GetOr([])
    ensures m.projectLayouts == c.projectLayouts.GetOr([]) && m.terminalFiles == c.terminalFiles.GetOr([])
    ensures m.attachedFoldersListDirResults == c.attachedFoldersListDirResults.GetOr([])
    ensures m.summarizedComposers == c.summarizedComposers.GetOr([])
  {
    MessageContext(contextId, c.terminalFiles.GetOr([]), c.cursorRules.GetOr([]), c.attachedFoldersListDirResults.GetOr([]),
                   c.summarizedComposers.GetOr([]), c.gitStatusRaw, c.todos.GetOr([]), c.projectLayouts.GetOr([]))
  }

  /**
   * getContext: the context under `messageRequestContext:<conversation>:<context>`. A missing,
   * empty or 'null' value throws the not-found error; malformed JSON throws `SyntaxError`, and the
   * JSON `null` throws `TypeError` when its `terminalFiles` is read.
   */
  function GetContext(store: Store, json: Json, conversationId: string, contextId: string): (r: Result<MessageContext>)
    ensures var v := LookupValue(store, MakeContextKey(conversationId, contextId));
      (Absent(v) <==> r == Err(NotFound("Context", contextId, conversationId)))
      && (!Absent(v) ==> match json.context(v.value)
                         case Malformed => r == Err(SyntaxError)
                         case JsonNull => r == Err(TypeError)
                         case Value(c) => r == Ok(Full(contextId, c)))
  {
    var v := LookupValue(store, MakeContextKey(conversationId, contextId));
    if Absent(v) then Err(NotFound("Context", contextId, conversationId))
    else
      match json.context(v.value)
      case Malformed => Err(SyntaxError)
      case JsonNull => Err(TypeError)
      case Value(c) => Ok(Full(contextId, c))
  }

  /**
   * A stored context read by getContext and projected by the listing agree: the id read back from
   * the key is the requested one, colons included, when the conversation id has no ':', and the
   * counts are the lengths of the full record's arrays.
   */
  lemma ListAndGetAgree(store: Store, json: Json, conversationId: string, contextId: string, v: string, c: RequestContext)
    requires ':' !in conversationId
    requires LookupValue(store, MakeContextKey(conversationId, contextId)) == Some(v)
    requires !Absent(Some(v)) && json.context(v) == Value(c)
    ensures GetContext(store, json, conversationId, contextId).Ok?
    ensures var m := GetContext(store, json, conversationId, contextId).value;
      Step(json, Row(MakeContextKey(conversationId, contextId), Some(v)))
        == [ContextSummary(m.contextId, Truthy(m.gitStatus), GitStatusPreview(m.gitStatus), |m.cursorRules|,
                           |m.todos|, |m.projectLayouts|, |m.terminalFiles|)]
  {
    var key := MakeContextKey(conversationId, contextId);
    FamilyPrefixes();
    LocalIdFromKey(ContextPrefix, conversationId, contextId);
    assert SnapshotTools.IdFromKey(key) == contextId;
    assert GetContext(store, json, conversationId, contextId) == Ok(Full(contextId, c));
    var m := Full(contextId, c);
    assert Step(json, Row(key, Some(v))) == [Project(contextId, c)];
    assert |m.cursorRules| == LengthOr0(c.cursorRules) && |m.todos| == LengthOr0(c.todos);
    assert |m.projectLayouts| == LengthOr0(c.projectLayouts) && |m.terminalFiles| == LengthOr0(c.terminalFiles);
  }

  // ----- getContextStats -----

  /** The context a sampled row holds; a missing value, malformed JSON and the JSON `null` give none. */
  function Decoded(json: Json, row: Row): (r: Option<RequestContext>)
    ensures r.Some? <==> !Absent(row.value) && json.context(row.value.value).Value?
    ensures r.Some? ==> json.context(row.value.value) == Value(r.value)
  {
    if Absent(row.value) then None
    else
      match json.context(row.value.value)
      case Value(c) => Some(c)
      case _ => None
  }

  predicate WithGitStatus(c: RequestContext) { Truthy(c.gitStatusRaw) }
  /** `ctx.cursorRules?.length` is truthy */
  predicate WithCursorRules(c: RequestContext) { LengthOr0(c.cursorRules) > 0 }
  predicate WithTodos(c: RequestContext) { LengthOr0(c.todos) > 0 }
  predicate WithProjectLayouts(c: RequestContext) { LengthOr0(c.projectLayouts) > 0 }

  /** The rows holding a context with property `p`. */
  function Where(json: Json, p: RequestContext -> bool): Row -> bool
  {
    row => Decoded(json, row).Some? && p(Decoded(json, row).value)
  }

  datatype Breakdown = Breakdown(withGitStatus: nat, withCursorRules: nat, withTodos: nat, withProjectLayouts: nat)

  datatype ContextStats = ContextStats(totalContexts: nat, sampleSize: nat, sampleBreakdown: Breakdown)

  function BreakdownOf(json: Json, rows: seq<Row>): Breakdown
  {
    Breakdown(Count(rows, Where(json, WithGitStatus)), Count(rows, Where(json, WithCursorRules)),
              Count(rows, Where(json, WithTodos)), Count(rows, Where(json, WithProjectLayouts)))
  }

  /** The first 50 rows of the whole context family. */
  function Sample(store: Store): seq<Row>
  {
    FirstRows(store, ContextPrefix, StatsSample)
  }

  function StatsOf(store: Store, json: Json): ContextStats
  {
    ContextStats(|ScanPrefix(store, ContextPrefix)|, |Sample(store)|, BreakdownOf(json, Sample(store)))
  }

  /** getContextStats */
  method GetContextStats(store: Store, json: Json) returns (r: ContextStats)
    ensures r == StatsOf(store, json)
  {
    var samples := Sample(store);
    var git, rules, todos, layouts := 0, 0, 0, 0;
    var i := 0;
    while i < |samples|
      invariant 0 <= i <= |samples|
      invariant git == Count(samples[..i], Where(json, WithGitStatus))
      invariant rules == Count(samples[..i], Where(json, WithCursorRules))
      invariant todos == Count(samples[..i], Where(json, WithTodos))
      invariant layouts == Count(samples[..i], Where(json, WithProjectLayouts))
    {
      var row := samples[i];
      CountNext(samples, i, Where(json, WithGitStatus));
      CountNext(samples, i, Where(json, WithCursorRules));
      CountNext(samples, i, Where(json, WithTodos));
      CountNext(samples, i, Where(json, WithProjectLayouts));
      var ctx := Decoded(json, row);
      if ctx.Some? {
        if WithGitStatus(ctx.value) { git := git + 1; }
        if WithCursorRules(ctx.value) { rules := rules + 1; }
        if WithTodos(ctx.value) { todos := todos + 1; }
        if WithProjectLayouts(ctx.value) { layouts := layouts + 1; }
      }
      i := i + 1;
    }
    assert samples[..i] == samples;
    r := ContextStats(|ScanPrefix(store, ContextPrefix)|, |samples|, Breakdown(git, rules, todos, layouts));
  }

  /** The sample holds at most 50 of the family's rows and no counter exceeds it. */
  lemma StatsBounds(store: Store, json: Json)
    ensures var s := StatsOf(store, json);
      s.sampleSize <= StatsSample && s.sampleSize <= s.totalContexts
      && s.sampleBreakdown.withGitStatus <= s.sampleSize && s.sampleBreakdown.withCursorRules <= s.sampleSize
      && s.sampleBreakdown.withTodos <= s.sampleSize && s.sampleBreakdown.withProjectLayouts <= s.sampleSize
  {
  }

  /**
   * The statistics and the listing judge a row alike: a row counts towards `withGitStatus` exactly
   * when the listing shows it with `hasGitStatus`, and towards the other counters exactly when the
   * listing shows a positive count.
   */
  lemma StatsAgreeWithListing(json: Json, row: Row)
    ensures Where(json, WithGitStatus)(row) <==> (Step(json, row) != [] && Step(json, row)[0].hasGitStatus)
    ensures Where(json, WithCursorRules)(row) <==> (Step(json, row) != [] && Step(json, row)[0].cursorRulesCount > 0)
    ensures Where(json, WithTodos)(row) <==> (Step(json, row) != [] && Step(json, row)[0].todosCount > 0)
    ensures Where(json, WithProjectLayouts)(row) <==> (Step(json, row) != [] && Step(json, row)[0].projectLayoutsCount > 0)
  {
    var d := Decoded(json, row);
    assert Where(json, WithGitStatus)(row) == (d.Some? && WithGitStatus(d.value));
    assert Where(json, WithCursorRules)(row) == (d.Some? && WithCursorRules(d.value));
    assert Where(json, WithTodos)(row) == (d.Some? && WithTodos(d.value));
    assert Where(json, WithProjectLayouts)(row) == (d.Some? && WithProjectLayouts(d.value));
    if d.Some? {
      assert Step(json, row) == [Project(SnapshotTools.IdFromKey(row.key), d.value)];
    } else {
      assert Step(json, row) == [];
    }
  }
}
