/**
 * searchConversationsAdvanced of src/lib/searchConversationsAdvanced.ts: the filters and sort of
 * the advanced search over rows read with the throwing parseConversation.
 */
module LibAdvancedSearch {
  import opened Wrappers
  import opened Records
  import opened Keys
  import opened Summaries
  import opened Sorting
  import opened Scans
  import opened QueryRules
  import LibSummary

  /** The entry a row would give: its summary's fields, when parseConversation returns a record. */
  function Candidate(store: Store, json: Json, row: Row): (r: Option<AdvancedEntry>)
    ensures r.Some? <==> (LibSummary.ParseConversation(json, row.key, row.value).Ok? &&
      LibSummary.ParseConversation(json, row.key, row.value).value.Some?)
  {
    match LibSummary.ParseConversation(json, row.key, row.value)
    case Ok(Some(c)) => Some(EntryOf(c.composerId, LibSummary.SummaryOf(c, Some(DbFetch(store, json)))))
    case _ => None
  }

  /** The row gives a record whose entry passes every filter. */
  predicate Qualifies(store: Store, json: Json, parseDate: DateParser, o: AdvancedOptions, row: Row)
  {
    Candidate(store, json, row).Some? && Passes(o, parseDate, Candidate(store, json, row).value)
  }

  function QualifiesFn(store: Store, json: Json, parseDate: DateParser, o: AdvancedOptions): Row -> bool
  {
    row => Qualifies(store, json, parseDate, o, row)
  }

  /** What one row adds: its entry exactly when it qualifies, or the exception of parseConversation. */
  function Step(store: Store, json: Json, parseDate: DateParser, o: AdvancedOptions, row: Row): (r: Result<seq<AdvancedEntry>>)
    ensures r.Err? <==> LibSummary.ParseConversation(json, row.key, row.value).Err?
    ensures r.Ok? && Qualifies(store, json, parseDate, o, row) ==> r.value == [Candidate(store, json, row).value]
    ensures r.Ok? && !Qualifies(store, json, parseDate, o, row) ==> r.value == []
  {
    match LibSummary.ParseConversation(json, row.key, row.value)
    case Err(e) => Err(e)
    case Ok(None) => Ok([])
    case Ok(Some(c)) =>
      var e := EntryOf(c.composerId, LibSummary.SummaryOf(c, Some(DbFetch(store, json))));
      if Passes(o, parseDate, e) then Ok([e]) else Ok([])
  }

  function StepFn(store: Store, json: Json, parseDate: DateParser, o: AdvancedOptions): Row -> Result<seq<AdvancedEntry>>
  {
    row => Step(store, json, parseDate, o, row)
  }

  /** The answer: the passing entries sorted and cut to the limit, or the first exception. */
  function Search(store: Store, json: Json, parseDate: DateParser, o: AdvancedOptions): Result<AdvancedResult>
  {
    match Collect(ScanPrefix(store, ConversationPrefix), StepFn(store, json, parseDate, o))
    case Err(e) => Err(e)
    case Ok(found) => Ok(Finish(o, found))
  }

  /** searchConversationsAdvanced */
  method SearchConversationsAdvanced(store: Store, json: Json, parseDate: DateParser, o: AdvancedOptions) returns (r: Result<AdvancedResult>)
    ensures r == Search(store, json, parseDate, o)
  {
    var rows := ScanPrefix(store, ConversationPrefix);
    var step := StepFn(store, json, parseDate, o);
    var found: seq<AdvancedEntry> := [];
    var i := 0;
    while i < |rows|
      invariant 0 <= i <= |rows|
      invariant Collect(rows[..i], step) == Ok(found)
    {
      var got := AdvancedRow(store, json, parseDate, o, rows[i]);
      CollectNext(rows, i, step);
      if got.Err? {
        CollectFailureSticks(rows, i + 1, step);
        return Err(got.error);
      }
      found := found + got.value;
      i := i + 1;
    }
    assert rows[..i] == rows;
    r := Ok(Finish(o, found));
  }

  /** The loop body for one row: the exception of parseConversation, or the entry when it passes. */
  method AdvancedRow(store: Store, json: Json, parseDate: DateParser, o: AdvancedOptions, row: Row) returns (r: Result<seq<AdvancedEntry>>)
    ensures r == Step(store, json, parseDate, o, row)
  {
    match LibSummary.ParseConversation(json, row.key, row.value) {
      case Err(e) =>
        return Err(e);
      case Ok(None) =>
        return Ok([]);
      case Ok(Some(c)) =>
        var s := LibSummary.GetConversationSummary(c, Some(DbFetch(store, json)));
        var e := EntryOf(c.composerId, s);
        if Passes(o, parseDate, e) {
          return Ok([e]);
        }
        return Ok([]);
    }
  }

  /**
   * Every returned entry passes the filters, and is the entry of a conversation row that
   * qualifies.
   */
  lemma ReturnedPass(store: Store, json: Json, parseDate: DateParser, o: AdvancedOptions, e: AdvancedEntry)
    requires Search(store, json, parseDate, o).Ok? && e in Search(store, json, parseDate, o).value.conversations
    ensures Passes(o, parseDate, e)
    ensures exists k :: (0 <= k < |ScanPrefix(store, ConversationPrefix)| &&
      Qualifies(store, json, parseDate, o, ScanPrefix(store, ConversationPrefix)[k]) &&
      e == Candidate(store, json, ScanPrefix(store, ConversationPrefix)[k]).value)
  {
    var found := Collect(ScanPrefix(store, ConversationPrefix), StepFn(store, json, parseDate, o)).value;
    assert e in Finish(o, found).conversations;
    assert multiset(Finish(o, found).conversations)[e] > 0;
    FoundPass(store, json, parseDate, o, e);
  }

  /** Every entry found passes the filters and is the entry of a conversation row that qualifies. */
  lemma FoundPass(store: Store, json: Json, parseDate: DateParser, o: AdvancedOptions, e: AdvancedEntry)
    requires Collect(ScanPrefix(store, ConversationPrefix), StepFn(store, json, parseDate, o)).Ok?
    requires e in Collect(ScanPrefix(store, ConversationPrefix), StepFn(store, json, parseDate, o)).value
    ensures Passes(o, parseDate, e)
    ensures exists k :: (0 <= k < |ScanPrefix(store, ConversationPrefix)| &&
      Qualifies(store, json, parseDate, o, ScanPrefix(store, ConversationPrefix)[k]) &&
      e == Candidate(store, json, ScanPrefix(store, ConversationPrefix)[k]).value)
  {
    var rows := ScanPrefix(store, ConversationPrefix);
    var step := StepFn(store, json, parseDate, o);
    CollectFrom(rows, step, e);
    var k :| 0 <= k < |rows| && step(rows[k]).Ok? && e in step(rows[k]).value;
    var row := rows[k];
    assert step(row) == Step(store, json, parseDate, o, row);
    assert Qualifies(store, json, parseDate, o, row) && e == Candidate(store, json, row).value;
  }

  /**
   * When the search succeeds, `total_found` is the number of conversation rows that qualify; the
   * entry of every qualifying row is found, and when they number at most the limit, every one of
   * them is returned.
   */
  lemma TotalFoundCounts(store: Store, json: Json, parseDate: DateParser, o: AdvancedOptions)
    requires Search(store, json, parseDate, o).Ok?
    ensures Search(store, json, parseDate, o).value.totalFound ==
      Count(ScanPrefix(store, ConversationPrefix), QualifiesFn(store, json, parseDate, o))
    ensures forall k :: (0 <= k < |ScanPrefix(store, ConversationPrefix)| &&
      Qualifies(store, json, parseDate, o, ScanPrefix(store, ConversationPrefix)[k])) ==>
        var r := Search(store, json, parseDate, o).value;
        0 <= LimitOption(o) && r.totalFound <= LimitOption(o) ==>
          Candidate(store, json, ScanPrefix(store, ConversationPrefix)[k]).value in r.conversations
  {
    var rows := ScanPrefix(store, ConversationPrefix);
    var step := StepFn(store, json, parseDate, o);
    var p := QualifiesFn(store, json, parseDate, o);
    forall k | 0 <= k < |rows| && step(rows[k]).Ok? ensures |step(rows[k]).value| == (if p(rows[k]) then 1 else 0) {
      assert step(rows[k]) == Step(store, json, parseDate, o, rows[k]);
    }
    CollectCount(rows, step, p);
    var found := Collect(rows, step).value;
    var r := Finish(o, found);
    forall k | 0 <= k < |rows| && Qualifies(store, json, parseDate, o, rows[k])
      ensures 0 <= LimitOption(o) && r.totalFound <= LimitOption(o) ==> Candidate(store, json, rows[k]).value in r.conversations
    {
      var e := Candidate(store, json, rows[k]).value;
      assert step(rows[k]) == Step(store, json, parseDate, o, rows[k]);
      CollectHas(rows, step, k, e);
      if 0 <= LimitOption(o) && r.totalFound <= LimitOption(o) {
        assert multiset(found)[e] > 0;
        assert multiset(r.conversations)[e] > 0;
      }
    }
  }
}
