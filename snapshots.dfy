/** The snapshot tools of src/tools/snapshots.ts: listSnapshots, getSnapshot and getSnapshotStats. */
module SnapshotTools {
  import opened Wrappers
  import opened Text
  import opened Records
  import opened Keys
  import opened Scans
  import opened ToolCommon

  /** The default size of a listing. */
  const ListLimit: int := 50

  /** The projection of a snapshot in the listing. */
  datatype SnapshotSummary = SnapshotSummary(snapshotId: string, fileCount: nat, newFoldersCount: nat, hasInlineDiffs: bool)

  /** `key.split(':').slice(2).join(':')`: everything after the second colon. */
  function IdFromKey(key: string): (r: string)
    ensures |Split(key, ':')| <= 2 ==> r == ""
  {
    Join(Drop(Split(key, ':'), 2), ":")
  }

  function Project(id: string, c: Checkpoint): (r: SnapshotSummary)
    ensures r.snapshotId == id
    ensures r.fileCount == LengthOr0(c.files) && r.newFoldersCount == LengthOr0(c.newlyCreatedFolders)
    ensures r.hasInlineDiffs <==> c.activeInlineDiffs.Some? && c.activeInlineDiffs.value != []
  {
    SnapshotSummary(id, LengthOr0(c.files), LengthOr0(c.newlyCreatedFolders), LengthOr0(c.activeInlineDiffs) > 0)
  }

  /**
   * What one row adds: skipped when missing, empty, 'null' or malformed, and for the JSON `null`,
   * whose `files` cannot be read.
   */
  function Step(json: Json, row: Row): (r: seq<SnapshotSummary>)
    ensures |r| <= 1
  {
    if Absent(row.value) then []
    else
      match json.checkpoint(row.value.value)
      case Value(c) => [Project(IdFromKey(row.key), c)]
      case _ => []
  }

  function StepFn(json: Json): Row -> seq<SnapshotSummary>
  {
    row => Step(json, row)
  }

  function ListedRows(store: Store, conversationId: string, limit: Option<int>): seq<Row>
  {
    FirstRows(store, OwnedPrefix(SnapshotPrefix, conversationId), limit.GetOr(ListLimit))
  }

  datatype SnapshotList = SnapshotList(conversationId: string, count: nat, snapshots: seq<SnapshotSummary>)

  /** listSnapshots */
  method ListSnapshots(store: Store, json: Json, conversationId: string, limit: Option<int>) returns (r: SnapshotList)
    ensures r.conversationId == conversationId
    ensures r.snapshots == Gather(ListedRows(store, conversationId, limit), StepFn(json))
    ensures r.count == |r.snapshots|
  {
    var rows := ListedRows(store, conversationId, limit);
    var snapshots: seq<SnapshotSummary> := [];
    var i := 0;
    while i < |rows|
      invariant 0 <= i <= |rows|
      invariant snapshots == Gather(rows[..i], StepFn(json))
    {
      assert rows[..i + 1][..i] == rows[..i];
      var row := rows[i];
      if !Absent(row.value) {
        var snapshotId := IdFromKey(row.key);
        match json.checkpoint(row.value.value) {
          case Value(data) =>
            snapshots := snapshots + [Project(snapshotId, data)];
          case _ =>
        }
      }
      i := i + 1;
    }
    assert rows[..i] == rows;
    r := SnapshotList(conversationId, |snapshots|, snapshots);
  }

  /**
   * The id a listing reads back from a snapshot key is the whole snapshot id, colons included,
   * the same as parseSnapshotKey gives, when the conversation id has no colon.
   */
  lemma ListedIdRoundTrip(conversationId: string, snapshotId: string)
    requires ':' !in conversationId
    ensures IdFromKey(MakeSnapshotKey(conversationId, snapshotId)) == snapshotId
    ensures ParseSnapshotKey(MakeSnapshotKey(conversationId, snapshotId)) == Some(SubKey(conversationId, IdFromKey(MakeSnapshotKey(conversationId, snapshotId))))
  {
    FamilyPrefixes();
    LocalIdFromKey(SnapshotPrefix, conversationId, snapshotId);
    SnapshotKeyRoundTrip(conversationId, snapshotId, MakeSnapshotKey(conversationId, snapshotId));
  }

  /**
   * getSnapshot: `{ snapshotId, ...parsed }`. A missing, empty or 'null' value throws the not-found
   * error and malformed JSON `SyntaxError`; the JSON `null` gives a record holding only the
   * requested id, and a stored `snapshotId` overrides the requested one.
   */
  function GetSnapshot(store: Store, json: Json, conversationId: string, snapshotId: string): (r: Result<Checkpoint>)
    ensures var v := LookupValue(store, MakeSnapshotKey(conversationId, snapshotId));
      (Absent(v) <==> r == Err(NotFound("Snapshot", snapshotId, conversationId)))
      && (!Absent(v) ==> (r == Err(SyntaxError) <==> json.checkpoint(v.value).Malformed?))
      && (r.Ok? ==> r.value.snapshotId.Some?)
      && (!Absent(v) && json.checkpoint(v.value).JsonNull? ==>
            r == Ok(Checkpoint(Some(snapshotId), None, None, None, None, None)))
      && (!Absent(v) && json.checkpoint(v.value).Value? ==>
            var c := json.checkpoint(v.value).value;
            r.Ok? && r.value.(snapshotId := c.snapshotId) == c
            && r.value.snapshotId == (if c.snapshotId.Some? then c.snapshotId else Some(snapshotId)))
  {
    var v := LookupValue(store, MakeSnapshotKey(conversationId, snapshotId));
    if Absent(v) then Err(NotFound("Snapshot", snapshotId, conversationId))
    else
      match json.checkpoint(v.value)
      case Malformed => Err(SyntaxError)
      case JsonNull => Ok(Checkpoint(Some(snapshotId), None, None, None, None, None))
      case Value(c) => Ok(if c.snapshotId.Some? then c else c.(snapshotId := Some(snapshotId)))
  }

  /** getSnapshotStats: the size of the whole snapshot family. */
  function SnapshotStats(store: Store): (total: nat)
    ensures total <= |store|
  {
    |ScanPrefix(store, SnapshotPrefix)|
  }

  /** A conversation's listing never holds more snapshots than the limit or the family's total. */
  lemma ListWithinStats(store: Store, json: Json, conversationId: string, limit: Option<int>)
    ensures var n := |Gather(ListedRows(store, conversationId, limit), StepFn(json))|;
      n <= SnapshotStats(store) && (0 <= limit.GetOr(ListLimit) ==> n <= limit.GetOr(ListLimit))
  {
    var rows := ListedRows(store, conversationId, limit);
    GatherAtMostOne(rows, StepFn(json));
    assert OwnedPrefix(SnapshotPrefix, conversationId) == SnapshotPrefix + (conversationId + ":");
    NarrowerScan(store, SnapshotPrefix, conversationId + ":");
  }
}
