/**
 * The code-diff tools of src/tools/get-code-diffs.ts: listCodeDiffs and getCodeDiffStats.
 * `CODE_BLOCK_DIFF` is the diff prefix, so they read the rows the diff tools read.
 */
module CodeDiffTools {
  import opened Wrappers
  import opened Records
  import opened Scans
  import opened DiffTools
  import SnapshotTools

  /** A collected row: its id and the parsed value, `None` for the JSON `null`. */
  datatype Collected = Collected(diffId: string, data: Option<CodeDiff>)

  /** What the collecting loop keeps of a row: everything that parses, the JSON `null` included. */
  function Step(json: Json, row: Row): (r: seq<Collected>)
    ensures |r| <= 1
  {
    if Absent(row.value) then []
    else
      match json.diff(row.value.value)
      case Malformed => []
      case JsonNull => [Collected(SnapshotTools.IdFromKey(row.key), None)]
      case Value(d) => [Collected(SnapshotTools.IdFromKey(row.key), Some(d))]
  }

  function StepFn(json: Json): Row -> seq<Collected>
  {
    row => Step(json, row)
  }

  predicate HasNull(entries: seq<Collected>)
  {
    exists k :: 0 <= k < |entries| && entries[k].data.None?
  }

  /** `changesCount: newModelDiffWrtV0?.length || 0` and `changes: newModelDiffWrtV0?.map(...) || []` read the changes or none. */
  function AsRecords(entries: seq<Collected>): (r: seq<DiffRecord>)
    requires !HasNull(entries)
    ensures |r| == |entries|
  {
    seq(|entries|, k requires 0 <= k < |entries| => DiffRecord(entries[k].diffId, entries[k].data.value.newModelDiffWrtV0.GetOr([])))
  }

  /**
   * The projection outside the `try`: a collected JSON `null`, or a change without `original` or
   * `modified`, makes the whole call throw `TypeError`.
   */
  function ProjectAll(entries: seq<Collected>): (r: Result<seq<DiffSummary>>)
    ensures r.Err? ==> r.error == TypeError
  {
    if HasNull(entries) then Err(TypeError) else DiffTools.ProjectAll(AsRecords(entries))
  }

  datatype CodeDiffList = CodeDiffList(composerId: string, count: nat, diffs: seq<DiffSummary>)

  function Listing(store: Store, json: Json, composerId: string, limit: Option<int>): Result<CodeDiffList>
  {
    var entries := Gather(DiffTools.ListedRows(store, composerId, limit), StepFn(json));
    match ProjectAll(entries)
    case Err(e) => Err(e)
    case Ok(diffs) => Ok(CodeDiffList(composerId, |entries|, diffs))
  }

  /** listCodeDiffs */
  method ListCodeDiffs(store: Store, json: Json, composerId: string, limit: Option<int>) returns (r: Result<CodeDiffList>)
    ensures r == Listing(store, json, composerId, limit)
  {
    var rows := DiffTools.ListedRows(store, composerId, limit);
    var entries: seq<Collected> := [];
    var i := 0;
    while i < |rows|
      invariant 0 <= i <= |rows|
      invariant entries == Gather(rows[..i], StepFn(json))
    {
      assert rows[..i + 1][..i] == rows[..i];
      var row := rows[i];
      if !Absent(row.value) {
        var diffId := SnapshotTools.IdFromKey(row.key);
        match json.diff(row.value.value) {
          case Malformed =>
          case JsonNull =>
            entries := entries + [Collected(diffId, None)];
          case Value(data) =>
            entries := entries + [Collected(diffId, Some(data))];
        }
      }
      i := i + 1;
    }
    assert rows[..i] == rows;
    var projected := ProjectEntries(entries);
    match projected {
      case Err(e) => r := Err(e);
      case Ok(diffs) => r := Ok(CodeDiffList(composerId, |entries|, diffs));
    }
  }

  /**
   * The `diffs.map(...)` of the return statement. Reading a field of a collected `null` and reading
   * an unreadable change both throw `TypeError`, so the order in which they are met does not matter.
   */
  method ProjectEntries(entries: seq<Collected>) returns (r: Result<seq<DiffSummary>>)
    ensures r == ProjectAll(entries)
  {
    var j := 0;
    while j < |entries|
      invariant 0 <= j <= |entries|
      invariant forall k :: 0 <= k < j ==> entries[k].data.Some?
    {
      if entries[j].data.None? {
        return Err(TypeError);
      }
      j := j + 1;
    }
    r := ProjectDiffs(AsRecords(entries));
  }

  /**
   * Without a JSON `null` among the listed rows, listCodeDiffs answers what listDiffs answers, both
   * the projections and the failure; a `null` row makes listCodeDiffs throw where listDiffs skips it.
   */
  lemma AgreesWithListDiffs(store: Store, json: Json, composerId: string, limit: Option<int>)
    ensures var rows := DiffTools.ListedRows(store, composerId, limit);
      (forall k :: 0 <= k < |rows| && !Absent(rows[k].value) ==> !json.diff(rows[k].value.value).JsonNull?) ==>
        match Listing(store, json, composerId, limit)
        case Err(e) => DiffTools.Listing(store, json, composerId, limit) == Err(e)
        case Ok(l) => DiffTools.Listing(store, json, composerId, limit) == Ok(DiffList(composerId, l.count, l.diffs))
  {
    var rows := DiffTools.ListedRows(store, composerId, limit);
    if forall k :: 0 <= k < |rows| && !Absent(rows[k].value) ==> !json.diff(rows[k].value.value).JsonNull? {
      SameRecords(rows, json);
    }
  }

  lemma {:induction false} SameRecords(rows: seq<Row>, json: Json)
    requires forall k :: 0 <= k < |rows| && !Absent(rows[k].value) ==> !json.diff(rows[k].value.value).JsonNull?
    ensures !HasNull(Gather(rows, StepFn(json)))
    ensures AsRecords(Gather(rows, StepFn(json))) == Gather(rows, DiffTools.StepFn(json))
  {
    if |rows| > 0 {
      var init := rows[..|rows| - 1];
      assert forall k :: 0 <= k < |init| ==> init[k] == rows[k];
      SameRecords(init, json);
      var g := Gather(init, StepFn(json));
      var last := Step(json, rows[|rows| - 1]);
      assert Gather(rows, StepFn(json)) == g + last;
      assert forall k :: 0 <= k < |g| ==> (g + last)[k] == g[k];
      assert !HasNull(g + last);
      assert AsRecords(g + last) == AsRecords(g) + DiffTools.Step(json, rows[|rows| - 1]);
    }
  }

  /** A listed row holding the JSON `null` makes listCodeDiffs throw `TypeError`. */
  lemma NullThrows(store: Store, json: Json, composerId: string, limit: Option<int>, k: nat)
    requires var rows := DiffTools.ListedRows(store, composerId, limit);
      k < |rows| && !Absent(rows[k].value) && json.diff(rows[k].value.value).JsonNull?
    ensures Listing(store, json, composerId, limit) == Err(TypeError)
  {
    var rows := DiffTools.ListedRows(store, composerId, limit);
    NullCollected(rows, json, k);
  }

  lemma {:induction false} NullCollected(rows: seq<Row>, json: Json, k: nat)
    requires k < |rows| && !Absent(rows[k].value) && json.diff(rows[k].value.value).JsonNull?
    ensures HasNull(Gather(rows, StepFn(json)))
  {
    var init := rows[..|rows| - 1];
    var g: seq<Collected> := Gather(init, StepFn(json));
    var last: seq<Collected> := Step(json, rows[|rows| - 1]);
    assert Gather(rows, StepFn(json)) == g + last;
    if k == |rows| - 1 {
      assert (g + last)[|g|].data.None?;
    } else {
      assert init[k] == rows[k];
      NullCollected(init, json, k);
      var j :| 0 <= j < |g| && g[j].data.None?;
      assert (g + last)[j] == g[j];
    }
  }

  datatype CodeDiffStats = CodeDiffStats(totalDiffRecords: nat, sampleSize: nat, totalChanges: nat, totalLinesModified: nat)

  /** getCodeDiffStats: the diff statistics, under the code-diff names. */
  method GetCodeDiffStats(store: Store, json: Json) returns (r: CodeDiffStats)
    ensures var s := DiffTools.StatsOf(store, json);
      r == CodeDiffStats(s.totalDiffs, s.sampleSize, s.totalChanges, s.totalLinesModified)
  {
    var s := GetDiffStats(store, json);
    r := CodeDiffStats(s.totalDiffs, s.sampleSize, s.totalChanges, s.totalLinesModified);
  }
}
