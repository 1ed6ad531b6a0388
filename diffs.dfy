/** The diff tools of src/tools/diffs.ts: listDiffs, getDiff and getDiffStats. */
module DiffTools {
  import opened Wrappers
  import opened Text
  import opened Records
  import opened Keys
  import opened Scans
  import opened ToolCommon
  import SnapshotTools

  /** The default size of a listing, and the rows the statistics sample. */
  const ListLimit: int := 50
  const StatsSample: int := 50

  /** The lines a change preview shows. */
  const PreviewLines: nat := 3

  /** `{ diffId, changes }`: what getDiff returns and what the listing collects per row. */
  datatype DiffRecord = DiffRecord(diffId: string, changes: seq<Change>)

  datatype ChangeSummary = ChangeSummary(startLine: Option<int>, endLine: Option<int>, linesAdded: nat, preview: string)

  datatype DiffSummary = DiffSummary(diffId: string, changesCount: nat, changes: seq<ChangeSummary>)

  datatype DiffList = DiffList(conversationId: string, count: nat, diffs: seq<DiffSummary>)

  /** `modified.slice(0, 3).join('\n').substring(0, 200)` */
  function ChangePreview(modified: seq<string>): (r: string)
    ensures |r| <= PreviewLength
    ensures var shown := Join(modified[..if |modified| < PreviewLines then |modified| else PreviewLines], "\n");
      StartsWith(shown, r) && (|shown| <= PreviewLength ==> r == shown)
  {
    var shown := modified[..if |modified| < PreviewLines then |modified| else PreviewLines];
    Take(Join(shown, "\n"), PreviewLength)
  }

  /** A change whose projection can be read: `original.startLineNumber` and `modified.length` do not throw. */
  predicate Readable(c: Change)
  {
    c.original.Some? && c.modified.Some?
  }

  predicate AllReadable(d: DiffRecord)
  {
    forall k :: 0 <= k < |d.changes| ==> Readable(d.changes[k])
  }

  function ChangeSummaryOf(c: Change): (r: ChangeSummary)
    requires Readable(c)
    ensures r.startLine == c.original.value.startLineNumber && r.endLine == c.original.value.endLineNumberExclusive
    ensures r.linesAdded == |c.modified.value|
  {
    ChangeSummary(c.original.value.startLineNumber, c.original.value.endLineNumberExclusive, |c.modified.value|,
                  ChangePreview(c.modified.value))
  }

  function ChangeSummaries(changes: seq<Change>): (r: seq<ChangeSummary>)
    requires forall k :: 0 <= k < |changes| ==> Readable(changes[k])
    ensures |r| == |changes| && forall k :: 0 <= k < |changes| ==> r[k] == ChangeSummaryOf(changes[k])
  {
    seq(|changes|, k requires 0 <= k < |changes| => ChangeSummaryOf(changes[k]))
  }

  function DiffSummaryOf(d: DiffRecord): (r: DiffSummary)
    requires AllReadable(d)
    ensures r.diffId == d.diffId && r.changesCount == |d.changes| == |r.changes|
  {
    DiffSummary(d.diffId, |d.changes|, ChangeSummaries(d.changes))
  }

  /**
   * The projection of the return statement, outside the `try`: one change without `original` or
   * `modified` anywhere makes the whole call throw `TypeError`.
   */
  function ProjectAll(ds: seq<DiffRecord>): (r: Result<seq<DiffSummary>>)
    ensures r.Ok? <==> forall k :: 0 <= k < |ds| ==> AllReadable(ds[k])
    ensures r.Err? ==> r.error == TypeError
    ensures r.Ok? ==> (|r.value| == |ds| && forall k :: 0 <= k < |ds| ==> r.value[k] == DiffSummaryOf(ds[k]))
  {
    if forall k :: 0 <= k < |ds| ==> AllReadable(ds[k]) then
      Ok(seq(|ds|, k requires 0 <= k < |ds| => DiffSummaryOf(ds[k])))
    else Err(TypeError)
  }

  /**
   * What the collecting loop keeps of a row: its id and `newModelDiffWrtV0 || []`; skipped when
   * missing, empty, 'null' or malformed, and for the JSON `null`, whose field cannot be read.
   */
  function Step(json: Json, row: Row): (r: seq<DiffRecord>)
    ensures |r| <= 1
  {
    if Absent(row.value) then []
    else
      match json.diff(row.value.value)
      case Value(d) => [DiffRecord(SnapshotTools.IdFromKey(row.key), d.newModelDiffWrtV0.GetOr([]))]
      case _ => []
  }

  function StepFn(json: Json): Row -> seq<DiffRecord>
  {
    row => Step(json, row)
  }

  function ListedRows(store: Store, conversationId: string, limit: Option<int>): seq<Row>
  {
    FirstRows(store, OwnedPrefix(DiffPrefix, conversationId), limit.GetOr(ListLimit))
  }

  function Listing(store: Store, json: Json, conversationId: string, limit: Option<int>): Result<DiffList>
  {
    var ds := Gather(ListedRows(store, conversationId, limit), StepFn(json));
    match ProjectAll(ds)
    case Err(e) => Err(e)
    case Ok(diffs) => Ok(DiffList(conversationId, |ds|, diffs))
  }

  /** listDiffs */
  method ListDiffs(store: Store, json: Json, conversationId: string, limit: Option<int>) returns (r: Result<DiffList>)
    ensures r == Listing(store, json, conversationId, limit)
  {
    var rows := ListedRows(store, conversationId, limit);
    var ds: seq<DiffRecord> := [];
    var i := 0;
    while i < |rows|
      invariant 0 <= i <= |rows|
      invariant ds == Gather(rows[..i], StepFn(json))
    {
      var record := DiffRow(json, rows[i]);
      GatherNext(rows, i, StepFn(json));
      ds := ds + record;
      i := i + 1;
    }
    assert rows[..i] == rows;
    var projected := ProjectDiffs(ds);
    match projected {
      case Err(e) => r := Err(e);
      case Ok(diffs) => r := Ok(DiffList(conversationId, |ds|, diffs));
    }
  }

  /** The loop body: read the id back from the key and keep the parsed record's changes. */
  method DiffRow(json: Json, row: Row) returns (record: seq<DiffRecord>)
    ensures record == StepFn(json)(row)
  {
    record := [];
    if !Absent(row.value) {
      var diffId := SnapshotTools.IdFromKey(row.key);
      match json.diff(row.value.value) {
        case Value(data) =>
          record := [DiffRecord(diffId, data.newModelDiffWrtV0.GetOr([]))];
        case _ =>
      }
    }
  }

  /** The `diffs.map(...)` of the return statement. */
  method ProjectDiffs(ds: seq<DiffRecord>) returns (r: Result<seq<DiffSummary>>)
    ensures r == ProjectAll(ds)
  {
    var out: seq<DiffSummary> := [];
    var j := 0;
    while j < |ds|
      invariant 0 <= j <= |ds|
      invariant forall k :: 0 <= k < j ==> AllReadable(ds[k])
      invariant out == seq(j, k requires 0 <= k < j => DiffSummaryOf(ds[k]))
    {
      var s := ProjectDiff(ds[j]);
      if s.Err? {
        return Err(TypeError);
      }
      out := out + [s.value];
      j := j + 1;
    }
    r := Ok(out);
  }

  /** The inner `changes.map(...)`. */
  method ProjectDiff(d: DiffRecord) returns (r: Result<DiffSummary>)
    ensures r.Ok? <==> AllReadable(d)
    ensures r.Ok? ==> r.value == DiffSummaryOf(d)
  {
    var changes: seq<ChangeSummary> := [];
    var j := 0;
    while j < |d.changes|
      invariant 0 <= j <= |d.changes|
      invariant forall k :: 0 <= k < j ==> Readable(d.changes[k])
      invariant changes == ChangeSummaries(d.changes[..j])
    {
      var c := d.changes[j];
      if c.original.None? || c.modified.None? {
        return Err(TypeError);
      }
      changes := changes + [ChangeSummaryOf(c)];
      j := j + 1;
    }
    assert d.changes[..j] == d.changes;
    r := Ok(DiffSummary(d.diffId, |d.changes|, changes));
  }

  /**
   * getDiff: `{ diffId, changes: newModelDiffWrtV0 || [] }` from the first row under the diff key.
   * A missing, empty or 'null' value throws the not-found error, malformed JSON `SyntaxError` and
   * the JSON `null` `TypeError`.
   */
  function GetDiff(store: Store, json: Json, conversationId: string, diffId: string): (r: Result<DiffRecord>)
    ensures var v := LookupValue(store, MakeDiffKey(conversationId, diffId));
      (Absent(v) <==> r == Err(NotFound("Diff", diffId, conversationId)))
      && (!Absent(v) ==> match json.diff(v.value)
                         case Malformed => r == Err(SyntaxError)
                         case JsonNull => r == Err(TypeError)
                         case Value(d) => r == Ok(DiffRecord(diffId, d.newModelDiffWrtV0.GetOr([]))))
  {
    var v := LookupValue(store, MakeDiffKey(conversationId, diffId));
    if Absent(v) then Err(NotFound("Diff", diffId, conversationId))
    else
      match json.diff(v.value)
      case Malformed => Err(SyntaxError)
      case JsonNull => Err(TypeError)
      case Value(d) => Ok(DiffRecord(diffId, d.newModelDiffWrtV0.GetOr([])))
  }

  /**
   * The listing collects for a stored diff the record getDiff returns for it: reading the id back
   * from the key gives the requested id when the conversation id has no colon.
   */
  lemma ListAndGetAgree(store: Store, json: Json, conversationId: string, diffId: string, v: string)
    requires ':' !in conversationId
    requires LookupValue(store, MakeDiffKey(conversationId, diffId)) == Some(v) && !Absent(Some(v)) && json.diff(v).Value?
    ensures Step(json, Row(MakeDiffKey(conversationId, diffId), Some(v))) == [GetDiff(store, json, conversationId, diffId).value]
  {
    FamilyPrefixes();
    LocalIdFromKey(DiffPrefix, conversationId, diffId);
  }

  // ----- getDiffStats -----

  /** The lines of a prefix of readable changes. */
  function Lines(changes: seq<Change>): nat
    requires forall k :: 0 <= k < |changes| ==> changes[k].modified.Some?
  {
    if |changes| == 0 then 0 else Lines(changes[..|changes| - 1]) + |changes[|changes| - 1].modified.value|
  }

  /** The number of changes before the first whose `modified` is missing. */
  function ReadableRun(changes: seq<Change>): (n: nat)
    ensures n <= |changes| && forall k :: 0 <= k < n ==> changes[k].modified.Some?
    ensures n < |changes| ==> changes[n].modified.None?
  {
    if |changes| == 0 || changes[0].modified.None? then 0 else 1 + ReadableRun(changes[1..])
  }

  /**
   * What the inner loop adds before it stops: the lines of every change up to the first whose
   * `modified` is missing, where reading its length throws and the row's remaining changes are
   * lost, while the additions already made stay.
   */
  function RowLines(changes: seq<Change>): nat
  {
    Lines(changes[..ReadableRun(changes)])
  }

  /** The changes of a sampled row, `None` for a skipped row. */
  function SampledChanges(json: Json, row: Row): Option<seq<Change>>
  {
    if Absent(row.value) then None
    else
      match json.diff(row.value.value)
      case Value(d) => Some(d.newModelDiffWrtV0.GetOr([]))
      case _ => None
  }

  function TotalChanges(json: Json, rows: seq<Row>): nat
  {
    if |rows| == 0 then 0
    else
      var c := SampledChanges(json, rows[|rows| - 1]);
      TotalChanges(json, rows[..|rows| - 1]) + (if c.Some? then |c.value| else 0)
  }

  function TotalLines(json: Json, rows: seq<Row>): nat
  {
    if |rows| == 0 then 0
    else
      var c := SampledChanges(json, rows[|rows| - 1]);
      TotalLines(json, rows[..|rows| - 1]) + (if c.Some? then RowLines(c.value) else 0)
  }

  /** The counters; the average, a decimal text, is not part of this model. */
  datatype DiffStats = DiffStats(totalDiffs: nat, sampleSize: nat, totalChanges: nat, totalLinesModified: nat)

  function Sample(store: Store): seq<Row>
  {
    FirstRows(store, DiffPrefix, StatsSample)
  }

  function StatsOf(store: Store, json: Json): DiffStats
  {
    DiffStats(|ScanPrefix(store, DiffPrefix)|, |Sample(store)|, TotalChanges(json, Sample(store)), TotalLines(json, Sample(store)))
  }

  /** getDiffStats */
  method GetDiffStats(store: Store, json: Json) returns (r: DiffStats)
    ensures r == StatsOf(store, json)
  {
    var samples := Sample(store);
    var totalChanges, totalLines := 0, 0;
    var i := 0;
    while i < |samples|
      invariant 0 <= i <= |samples|
      invariant totalChanges == TotalChanges(json, samples[..i])
      invariant totalLines == TotalLines(json, samples[..i])
    {
      assert samples[..i + 1][..i] == samples[..i] && samples[..i + 1][i] == samples[i];
      var changes := SampledChanges(json, samples[i]);
      if changes.Some? {
        totalChanges := totalChanges + |changes.value|;
        totalLines := AddLines(totalLines, changes.value);
      }
      i := i + 1;
    }
    assert samples[..i] == samples;
    r := DiffStats(|ScanPrefix(store, DiffPrefix)|, |samples|, totalChanges, totalLines);
  }

  /** `for (const change of changes) total += change.modified.length`, until a change throws. */
  method AddLines(total: nat, changes: seq<Change>) returns (r: nat)
    ensures r == total + RowLines(changes)
  {
    r := total;
    var j := 0;
    while j < |changes|
      invariant 0 <= j <= ReadableRun(changes)
      invariant r == total + Lines(changes[..j])
    {
      if changes[j].modified.None? {
        return;
      }
      assert changes[..j + 1][..j] == changes[..j];
      r := r + |changes[j].modified.value|;
      j := j + 1;
    }
  }

  // ----- Listing against statistics -----

  function ListedChanges(ds: seq<DiffSummary>): nat
  {
    if |ds| == 0 then 0 else ListedChanges(ds[..|ds| - 1]) + ds[|ds| - 1].changesCount
  }

  function AddedLines(cs: seq<ChangeSummary>): nat
  {
    if |cs| == 0 then 0 else AddedLines(cs[..|cs| - 1]) + cs[|cs| - 1].linesAdded
  }

  function ListedLines(ds: seq<DiffSummary>): nat
  {
    if |ds| == 0 then 0 else ListedLines(ds[..|ds| - 1]) + AddedLines(ds[|ds| - 1].changes)
  }

  /**
   * Over rows whose changes are all readable, the statistics' sums are the sums of what the
   * listing reports: `totalChanges` adds up `changesCount` and `totalLinesModified` adds up
   * `linesAdded`.
   */
  lemma {:induction false} StatsMatchListing(json: Json, rows: seq<Row>)
    requires ProjectAll(Gather(rows, StepFn(json))).Ok?
    ensures ListedChanges(ProjectAll(Gather(rows, StepFn(json))).value) == TotalChanges(json, rows)
    ensures ListedLines(ProjectAll(Gather(rows, StepFn(json))).value) == TotalLines(json, rows)
  {
    if |rows| > 0 {
      var init := rows[..|rows| - 1];
      var g := Gather(init, StepFn(json));
      var last := Step(json, rows[|rows| - 1]);
      assert Gather(rows, StepFn(json)) == g + last;
      if |last| > 0 {
        ProjectSnoc(g, last[0]);
      } else {
        assert g + last == g;
      }
      StatsMatchListing(json, init);
      StatsStep(json, rows, g, last);
    }
  }

  /** The sums over all the rows, from the sums over all but the last. */
  lemma StatsStep(json: Json, rows: seq<Row>, g: seq<DiffRecord>, last: seq<DiffRecord>)
    requires |rows| > 0 && last == Step(json, rows[|rows| - 1])
    requires ProjectAll(g + last).Ok? && ProjectAll(g).Ok?
    requires |last| > 0 ==> AllReadable(last[0]) && ProjectAll(g + last).value == ProjectAll(g).value + [DiffSummaryOf(last[0])]
    requires |last| == 0 ==> g + last == g
    requires ListedChanges(ProjectAll(g).value) == TotalChanges(json, rows[..|rows| - 1])
    requires ListedLines(ProjectAll(g).value) == TotalLines(json, rows[..|rows| - 1])
    ensures ListedChanges(ProjectAll(g + last).value) == TotalChanges(json, rows)
    ensures ListedLines(ProjectAll(g + last).value) == TotalLines(json, rows)
  {
    var row := rows[|rows| - 1];
    var c := SampledChanges(json, row);
    TotalsSnoc(json, rows);
    if |last| == 0 {
      assert c.None?;
      assert ProjectAll(g + last) == ProjectAll(g);
    } else {
      var d := last[0];
      assert last == [d];
      RowStats(json, row, d);
      ListedSnoc(ProjectAll(g).value, DiffSummaryOf(d));
    }
  }

  /** One more sampled row adds its change count and its line count to the sums. */
  lemma TotalsSnoc(json: Json, rows: seq<Row>)
    requires |rows| > 0
    ensures var c := SampledChanges(json, rows[|rows| - 1]);
      TotalChanges(json, rows) == TotalChanges(json, rows[..|rows| - 1]) + (if c.Some? then |c.value| else 0)
      && TotalLines(json, rows) == TotalLines(json, rows[..|rows| - 1]) + (if c.Some? then RowLines(c.value) else 0)
  {
  }

  /** A sampled row that the listing projects adds its changes and their lines. */
  lemma RowStats(json: Json, row: Row, d: DiffRecord)
    requires Step(json, row) == [d] && AllReadable(d)
    ensures SampledChanges(json, row) == Some(d.changes)
    ensures DiffSummaryOf(d).changesCount == |d.changes| && AddedLines(DiffSummaryOf(d).changes) == RowLines(d.changes)
  {
    AllLines(d);
  }

  lemma ListedSnoc(xs: seq<DiffSummary>, x: DiffSummary)
    ensures ListedChanges(xs + [x]) == ListedChanges(xs) + x.changesCount
    ensures ListedLines(xs + [x]) == ListedLines(xs) + AddedLines(x.changes)
  {
    assert (xs + [x])[..|xs|] == xs;
  }

  /** Projecting one more record appends its summary. */
  lemma ProjectSnoc(g: seq<DiffRecord>, d: DiffRecord)
    requires ProjectAll(g + [d]).Ok?
    ensures AllReadable(d) && ProjectAll(g).Ok? && ProjectAll(g + [d]).value == ProjectAll(g).value + [DiffSummaryOf(d)]
  {
    assert forall k :: 0 <= k < |g| ==> (g + [d])[k] == g[k];
    assert (g + [d])[|g|] == d;
  }

  /** A readable diff's lines are the sum of its changes' `linesAdded`. */
  lemma {:induction false} AllLines(d: DiffRecord)
    requires AllReadable(d)
    requires forall k :: 0 <= k < |d.changes| ==> d.changes[k].modified.Some?
    ensures AddedLines(DiffSummaryOf(d).changes) == RowLines(d.changes)
  {
    FullRun(d.changes);
    SumLines(d.changes);
    assert d.changes[..|d.changes|] == d.changes;
  }

  lemma {:induction false} FullRun(changes: seq<Change>)
    requires forall k :: 0 <= k < |changes| ==> changes[k].modified.Some?
    ensures ReadableRun(changes) == |changes|
  {
    if |changes| > 0 {
      assert forall k :: 0 <= k < |changes| - 1 ==> changes[1..][k] == changes[k + 1];
      FullRun(changes[1..]);
    }
  }

  lemma {:induction false} SumLines(changes: seq<Change>)
    requires forall k :: 0 <= k < |changes| ==> Readable(changes[k])
    requires forall k :: 0 <= k < |changes| ==> changes[k].modified.Some?
    ensures AddedLines(ChangeSummaries(changes)) == Lines(changes)
  {
    var cs := ChangeSummaries(changes);
    if |changes| > 0 {
      var init := changes[..|changes| - 1];
      SumLines(init);
      assert cs[..|cs| - 1] == ChangeSummaries(init);
    }
  }
}
