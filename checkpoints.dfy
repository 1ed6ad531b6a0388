/**
 * The checkpoint tools of src/tools/get-checkpoints.ts: listCheckpoints, getCheckpoint and
 * getCheckpointStats. `CHECKPOINT_ID` is the snapshot prefix: checkpoints and snapshots are one
 * family read two ways.
 */
module CheckpointTools {
  import opened Wrappers
  import opened Text
  import opened Records
  import opened Keys
  import opened Scans
  import opened ToolCommon
  import SnapshotTools

  /** A collected row: its id and the parsed value, `None` for the JSON `null`. */
  datatype Collected = Collected(checkpointId: string, data: Option<Checkpoint>)

  /** The projection of a checkpoint in the listing. */
  datatype CheckpointSummary = CheckpointSummary(
    checkpointId: string,
    filesCount: nat,
    newFoldersCount: nat,
    activeInlineDiffsCount: nat,
    hasNewResources: bool)

  /** `!!(res?.files?.length || res?.folders?.length)` */
  predicate HasNewResources(res: Option<NewResources>)
  {
    res.Some? && (LengthOr0(res.value.files) > 0 || LengthOr0(res.value.folders) > 0)
  }

  function Project(id: string, c: Checkpoint): (r: CheckpointSummary)
    ensures r.checkpointId == id && r.filesCount == LengthOr0(c.files)
    ensures r.newFoldersCount == LengthOr0(c.newlyCreatedFolders) && r.activeInlineDiffsCount == LengthOr0(c.activeInlineDiffs)
    ensures r.hasNewResources <==> (c.inlineDiffNewlyCreatedResources.Some?
      && ((c.inlineDiffNewlyCreatedResources.value.files.Some? && c.inlineDiffNewlyCreatedResources.value.files.value != [])
          || (c.inlineDiffNewlyCreatedResources.value.folders.Some? && c.inlineDiffNewlyCreatedResources.value.folders.value != [])))
  {
    CheckpointSummary(id, LengthOr0(c.files), LengthOr0(c.newlyCreatedFolders), LengthOr0(c.activeInlineDiffs),
                      HasNewResources(c.inlineDiffNewlyCreatedResources))
  }

  /** What the collecting loop keeps of a row: everything that parses, the JSON `null` included. */
  function Step(json: Json, row: Row): (r: seq<Collected>)
    ensures |r| <= 1
  {
    if Absent(row.value) then []
    else
      match json.checkpoint(row.value.value)
      case Malformed => []
      case JsonNull => [Collected(SnapshotTools.IdFromKey(row.key), None)]
      case Value(c) => [Collected(SnapshotTools.IdFromKey(row.key), Some(c))]
  }

  function StepFn(json: Json): Row -> seq<Collected>
  {
    row => Step(json, row)
  }

  /**
   * The projection outside the `try`: any collected JSON `null` makes reading its `files` throw
   * `TypeError`, which escapes the whole call.
   */
  function ProjectAll(entries: seq<Collected>): (r: Result<seq<CheckpointSummary>>)
    ensures r.Err? <==> HasNull(entries)
    ensures r.Err? ==> r.error == TypeError
    ensures r.Ok? ==> (|r.value| == |entries|
      && forall k :: 0 <= k < |entries| ==> r.value[k] == Project(entries[k].checkpointId, entries[k].data.value))
  {
    if HasNull(entries) then Err(TypeError)
    else Ok(seq(|entries|, k requires 0 <= k < |entries| => Project(entries[k].checkpointId, entries[k].data.value)))
  }

  datatype CheckpointList = CheckpointList(composerId: string, count: nat, checkpoints: seq<CheckpointSummary>)

  function Listing(store: Store, json: Json, composerId: string, limit: Option<int>): Result<CheckpointList>
  {
    var entries := Gather(SnapshotTools.ListedRows(store, composerId, limit), StepFn(json));
    match ProjectAll(entries)
    case Err(e) => Err(e)
    case Ok(checkpoints) => Ok(CheckpointList(composerId, |entries|, checkpoints))
  }

  /** listCheckpoints */
  method ListCheckpoints(store: Store, json: Json, composerId: string, limit: Option<int>) returns (r: Result<CheckpointList>)
    ensures r == Listing(store, json, composerId, limit)
  {
    var rows := SnapshotTools.ListedRows(store, composerId, limit);
    var entries: seq<Collected> := [];
    var i := 0;
    while i < |rows|
      invariant 0 <= i <= |rows|
      invariant entries == Gather(rows[..i], StepFn(json))
    {
      assert rows[..i + 1][..i] == rows[..i];
      var row := rows[i];
      if !Absent(row.value) {
        var checkpointId := SnapshotTools.IdFromKey(row.key);
        match json.checkpoint(row.value.value) {
          case Malformed =>
          case JsonNull =>
            entries := entries + [Collected(checkpointId, None)];
          case Value(data) =>
            entries := entries + [Collected(checkpointId, Some(data))];
        }
      }
      i := i + 1;
    }
    assert rows[..i] == rows;
    var projected := ProjectEntries(entries);
    match projected {
      case Err(e) => r := Err(e);
      case Ok(checkpoints) => r := Ok(CheckpointList(composerId, |entries|, checkpoints));
    }
  }

  /** The `checkpoints.map(...)` of the return statement. */
  method ProjectEntries(entries: seq<Collected>) returns (r: Result<seq<CheckpointSummary>>)
    ensures r == ProjectAll(entries)
  {
    var checkpoints: seq<CheckpointSummary> := [];
    var j := 0;
    while j < |entries|
      invariant 0 <= j <= |entries|
      invariant forall k :: 0 <= k < j ==> entries[k].data.Some?
      invariant checkpoints == seq(j, k requires 0 <= k < j => Project(entries[k].checkpointId, entries[k].data.value))
    {
      var c := entries[j];
      if c.data.None? {
        assert HasNull(entries);
        return Err(TypeError);
      }
      checkpoints := checkpoints + [Project(c.checkpointId, c.data.value)];
      j := j + 1;
    }
    r := Ok(checkpoints);
  }

  /**
   * getCheckpoint: the parsed value under the checkpoint key. A missing, empty or 'null' value
   * throws the not-found error and malformed JSON `SyntaxError`; the JSON `null` is returned.
   */
  function GetCheckpoint(store: Store, json: Json, composerId: string, checkpointId: string): (r: Result<Option<Checkpoint>>)
    ensures var v := LookupValue(store, MakeSnapshotKey(composerId, checkpointId));
      (Absent(v) <==> r == Err(NotFound("Checkpoint", checkpointId, composerId)))
      && (!Absent(v) ==> (r == Err(SyntaxError) <==> json.checkpoint(v.value).Malformed?)
                         && (r == Ok(None) <==> json.checkpoint(v.value).JsonNull?))
  {
    var v := LookupValue(store, MakeSnapshotKey(composerId, checkpointId));
    if Absent(v) then Err(NotFound("Checkpoint", checkpointId, composerId))
    else
      match json.checkpoint(v.value)
      case Malformed => Err(SyntaxError)
      case JsonNull => Ok(None)
      case Value(c) => Ok(Some(c))
  }

  /**
   * getCheckpoint and getSnapshot read the same row: both fail together, and where getCheckpoint
   * returns a record getSnapshot returns it with its `snapshotId` filled in.
   */
  lemma CheckpointIsSnapshot(store: Store, json: Json, composerId: string, id: string)
    ensures GetCheckpoint(store, json, composerId, id).Err? <==> SnapshotTools.GetSnapshot(store, json, composerId, id).Err?
    ensures GetCheckpoint(store, json, composerId, id).Ok? && GetCheckpoint(store, json, composerId, id).value.Some? ==>
      var c := GetCheckpoint(store, json, composerId, id).value.value;
      SnapshotTools.GetSnapshot(store, json, composerId, id) == Ok(c.(snapshotId := if c.snapshotId.Some? then c.snapshotId else Some(id)))
  {
  }

  /**
   * The listing succeeds exactly when no listed row holds the JSON `null`, and then it projects
   * every listed row the snapshot listing projects, with the same id and counts.
   */
  lemma ListingMatchesSnapshots(store: Store, json: Json, composerId: string, limit: Option<int>)
    ensures var rows := SnapshotTools.ListedRows(store, composerId, limit);
      Listing(store, json, composerId, limit).Ok? <==> forall k :: 0 <= k < |rows| ==> !NullRow(json, rows[k])
    ensures Listing(store, json, composerId, limit).Ok? ==>
      var snaps := Gather(SnapshotTools.ListedRows(store, composerId, limit), SnapshotTools.StepFn(json));
      var cps := Listing(store, json, composerId, limit).value.checkpoints;
      |cps| == |snaps| && forall k :: 0 <= k < |cps| ==>
        cps[k].checkpointId == snaps[k].snapshotId && cps[k].filesCount == snaps[k].fileCount
        && cps[k].newFoldersCount == snaps[k].newFoldersCount && (cps[k].activeInlineDiffsCount > 0 <==> snaps[k].hasInlineDiffs)
  {
    var rows := SnapshotTools.ListedRows(store, composerId, limit);
    NullRows(rows, json);
    if Listing(store, json, composerId, limit).Ok? {
      SameRows(rows, json);
    }
  }

  predicate HasNull(entries: seq<Collected>)
  {
    exists k :: 0 <= k < |entries| && entries[k].data.None?
  }

  predicate NullRow(json: Json, row: Row)
  {
    !Absent(row.value) && json.checkpoint(row.value.value).JsonNull?
  }

  lemma {:induction false} NullRows(rows: seq<Row>, json: Json)
    ensures HasNull(Gather(rows, StepFn(json))) <==> exists k :: 0 <= k < |rows| && NullRow(json, rows[k])
  {
    if |rows| > 0 {
      var init := rows[..|rows| - 1];
      var row := rows[|rows| - 1];
      NullRows(init, json);
      var g := Gather(init, StepFn(json));
      var last := Step(json, row);
      var all := g + last;
      assert Gather(rows, StepFn(json)) == all;
      if exists k :: 0 <= k < |rows| && NullRow(json, rows[k]) {
        var k :| 0 <= k < |rows| && NullRow(json, rows[k]);
        if k < |init| {
          assert init[k] == rows[k];
          var j :| 0 <= j < |g| && g[j].data.None?;
          assert all[j] == g[j];
        } else {
          assert all[|g|] == last[0];
        }
      }
      if HasNull(all) {
        var j :| 0 <= j < |all| && all[j].data.None?;
        if j < |g| {
          assert all[j] == g[j];
          var k :| 0 <= k < |init| && NullRow(json, init[k]);
          assert init[k] == rows[k];
        } else {
          assert all[j] == last[j - |g|];
          assert NullRow(json, row);
        }
      }
    }
  }

  lemma {:induction false} SameRows(rows: seq<Row>, json: Json)
    requires forall k :: 0 <= k < |rows| ==> !NullRow(json, rows[k])
    ensures Mirrors(Gather(rows, StepFn(json)), Gather(rows, SnapshotTools.StepFn(json)))
  {
    if |rows| > 0 {
      var init := rows[..|rows| - 1];
      var row := rows[|rows| - 1];
      assert forall k :: 0 <= k < |init| ==> init[k] == rows[k];
      SameRows(init, json);
      RowMirrors(json, row);
      MirrorsJoin(Gather(init, StepFn(json)), Gather(init, SnapshotTools.StepFn(json)),
                  Step(json, row), SnapshotTools.Step(json, row));
      assert Gather(rows, StepFn(json)) == Gather(init, StepFn(json)) + Step(json, row);
      assert Gather(rows, SnapshotTools.StepFn(json)) == Gather(init, SnapshotTools.StepFn(json)) + SnapshotTools.Step(json, row);
    }
  }

  /** Each collected checkpoint is parsed and listSnapshots shows it at the same position. */
  predicate Mirrors(cs: seq<Collected>, ss: seq<SnapshotTools.SnapshotSummary>)
  {
    |cs| == |ss| && forall k :: 0 <= k < |cs| ==> (cs[k].data.Some?
      && ss[k] == SnapshotTools.Project(cs[k].checkpointId, cs[k].data.value))
  }

  lemma RowMirrors(json: Json, row: Row)
    requires !NullRow(json, row)
    ensures Mirrors(Step(json, row), SnapshotTools.Step(json, row))
  {
  }

  lemma MirrorsJoin(cs: seq<Collected>, ss: seq<SnapshotTools.SnapshotSummary>,
                    cs2: seq<Collected>, ss2: seq<SnapshotTools.SnapshotSummary>)
    requires Mirrors(cs, ss) && Mirrors(cs2, ss2)
    ensures Mirrors(cs + cs2, ss + ss2)
  {
    forall k | 0 <= k < |cs + cs2|
      ensures (cs + cs2)[k].data.Some?
        && (ss + ss2)[k] == SnapshotTools.Project((cs + cs2)[k].checkpointId, (cs + cs2)[k].data.value)
    {
      if k >= |cs| {
        assert (cs + cs2)[k] == cs2[k - |cs|] && (ss + ss2)[k] == ss2[k - |cs|];
      }
    }
  }

  /** getCheckpointStats: the size of the family, the same as getSnapshotStats reports. */
  function CheckpointStats(store: Store): (total: nat)
    ensures total == SnapshotTools.SnapshotStats(store)
  {
    |ScanPrefix(store, SnapshotPrefix)|
  }
}
