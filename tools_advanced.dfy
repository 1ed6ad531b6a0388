/** searchConversationsAdvanced of src/tools/search-conversations-advanced.ts. */
module ToolsAdvancedSearch {
  import opened Wrappers
  import opened Text
  import opened Records
  import opened Keys
  import opened Summaries
  import opened Sorting
  import opened Scans
  import opened QueryRules
  import ToolsSummary
  import ToolsList

  /** The entry a row would give: its summary's fields, when the row parses. */
  function Candidate(store: Store, json: Json, row: Row): (r: Option<AdvancedEntry>)
    ensures r.Some? <==> ToolsList.ParseRow(json, row).Some?
    ensures r.Some? ==> r.value.composerId == Some(SliceFrom(row.key, |ConversationPrefix|))
  {
    match ToolsList.ParseRow(json, row)
    case None => None
    case Some(c) => Some(EntryOf(c.composerId, ToolsSummary.SummaryOf(c, Some(DbFetch(store, json)))))
  }

  /** The row parses and its entry passes every filter. */
  predicate Qualifies(store: Store, json: Json, parseDate: DateParser, o: AdvancedOptions, row: Row)
  {
    Candidate(store, json, row).Some? && Passes(o, parseDate, Candidate(store, json, row).value)
  }

  function QualifiesFn(store: Store, json: Json, parseDate: DateParser, o: AdvancedOptions): Row -> bool
  {
    row => Qualifies(store, json, parseDate, o, row)
  }

  /** What one row adds: its entry exactly when the row parses and the entry passes every filter. */
  function Step(store: Store, json: Json, parseDate: DateParser, o: AdvancedOptions, row: Row): (r: seq<AdvancedEntry>)
    ensures Qualifies(store, json, parseDate, o, row) ==> r == [Candidate(store, json, row).value]
    ensures !Qualifies(store, json, parseDate, o, row) ==> r == []
  {
    match ToolsList.ParseRow(json, row)
    case None => []
    case Some(c) =>
      var e := EntryOf(c.composerId, ToolsSummary.SummaryOf(c, Some(DbFetch(store, json))));
      if Passes(o, parseDate, e) then [e] else []
  }

  function StepFn(store: Store, json: Json, parseDate: DateParser, o: AdvancedOptions): Row -> seq<AdvancedEntry>
  {
    row => Step(store, json, parseDate, o, row)
  }

  /** The entries that pass, in row order, before sorting. */
  function Found(store: Store, json: Json, parseDate: DateParser, o: AdvancedOptions): seq<AdvancedEntry>
  {
    Gather(ScanPrefix(store, ConversationPrefix), StepFn(store, json, parseDate, o))
  }

  /** searchConversationsAdvanced */
  method SearchConversationsAdvanced(store: Store, json: Json, parseDate: DateParser, o: AdvancedOptions) returns (r: AdvancedResult)
    ensures r == Finish(o, Found(store, json, parseDate, o))
  {
    var rows := ScanPrefix(store, ConversationPrefix);
    var step := StepFn(store, json, parseDate, o);
    var found: seq<AdvancedEntry> := [];
    var i := 0;
    while i < |rows|
      invariant 0 <= i <= |rows|
      invariant found == Gather(rows[..i], step)
    {
      var kept := AdvancedRow(store, json, parseDate, o, rows[i]);
      GatherNext(rows, i, step);
      found := found + kept;
      i := i + 1;
    }
    assert rows[..i] == rows;
    r := Finish(o, found);
  }

  /** The loop body for one row: its entry when the row parses and passes the filters. */
  method AdvancedRow(store: Store, json: Json, parseDate: DateParser, o: AdvancedOptions, row: Row) returns (kept: seq<AdvancedEntry>)
    ensures kept == Step(store, json, parseDate, o, row)
  {
    kept := [];
    if !Absent(row.value) {
      match json.conversation(row.value.value) {
        case Value(parsed) =>
          var c := parsed.(composerId := Some(SliceFrom(row.key, |ConversationPrefix|)));
          var s := ToolsSummary.GetConversationSummary(c, Some(DbFetch(store, json)));
          var e := EntryOf(c.composerId, s);
          if Passes(o, parseDate, e) {
            kept := [e];
          }
        case _ =>
      }
    }
  }

  /**
   * Every returned entry passes the filters and is the entry of a qualifying conversation row:
   * its id is that row's key minus the prefix.
   */
  lemma ReturnedPass(store: Store, json: Json, parseDate: DateParser, o: AdvancedOptions, e: AdvancedEntry)
    requires e in Finish(o, Found(store, json, parseDate, o)).conversations
    ensures Passes(o, parseDate, e)
    ensures exists k :: (0 <= k < |ScanPrefix(store, ConversationPrefix)| &&
      Qualifies(store, json, parseDate, o, ScanPrefix(store, ConversationPrefix)[k]) &&
      e == Candidate(store, json, ScanPrefix(store, ConversationPrefix)[k]).value)
    ensures exists k :: (0 <= k < |ScanPrefix(store, ConversationPrefix)| &&
      var row := ScanPrefix(store, ConversationPrefix)[k];
      ToolsList.ParseRow(json, row).Some? && e.composerId == Some(SliceFrom(row.key, |ConversationPrefix|)))
  {
    var found := Found(store, json, parseDate, o);
    assert multiset(Finish(o, found).conversations)[e] > 0;
    assert e in found;
    FoundEntry(store, json, parseDate, o, ScanPrefix(store, ConversationPrefix), e);
  }

  /** A row yields `e` exactly when it qualifies and `e` is its entry. */
  lemma StepYields(store: Store, json: Json, parseDate: DateParser, o: AdvancedOptions, row: Row, e: AdvancedEntry)
    ensures e in StepFn(store, json, parseDate, o)(row) <==>
      Qualifies(store, json, parseDate, o, row) && e == Candidate(store, json, row).value
    ensures e in StepFn(store, json, parseDate, o)(row) ==>
      Passes(o, parseDate, e) && ToolsList.ParseRow(json, row).Some? && e.composerId == Some(SliceFrom(row.key, |ConversationPrefix|))
  {
    assert StepFn(store, json, parseDate, o)(row) == Step(store, json, parseDate, o, row);
  }

  /**
   * An entry is gathered from `rows` exactly when it is the entry of a qualifying row; it then
   * passes the filters and comes from a row that parses.
   */
  lemma FoundEntry(store: Store, json: Json, parseDate: DateParser, o: AdvancedOptions, rows: seq<Row>, e: AdvancedEntry)
    ensures e in Gather(rows, StepFn(store, json, parseDate, o)) <==>
      exists k :: 0 <= k < |rows| && Qualifies(store, json, parseDate, o, rows[k]) && e == Candidate(store, json, rows[k]).value
    ensures e in Gather(rows, StepFn(store, json, parseDate, o)) ==> (Passes(o, parseDate, e) &&
      exists k :: (0 <= k < |rows| &&
        ToolsList.ParseRow(json, rows[k]).Some? && e.composerId == Some(SliceFrom(rows[k].key, |ConversationPrefix|))))
  {
    var step := StepFn(store, json, parseDate, o);
    if e in Gather(rows, step) {
      GatherFrom(rows, step, e);
      var k :| 0 <= k < |rows| && e in step(rows[k]);
      StepYields(store, json, parseDate, o, rows[k], e);
    }
    if exists k :: 0 <= k < |rows| && Qualifies(store, json, parseDate, o, rows[k]) && e == Candidate(store, json, rows[k]).value {
      var k :| 0 <= k < |rows| && Qualifies(store, json, parseDate, o, rows[k]) && e == Candidate(store, json, rows[k]).value;
      StepYields(store, json, parseDate, o, rows[k], e);
      GatherHas(rows, step, k, e);
    }
  }

  /**
   * `total_found` is the number of conversation rows that qualify; the entry of every qualifying
   * row is found, and when they number at most the limit, every one of them is returned.
   */
  lemma TotalFoundCounts(store: Store, json: Json, parseDate: DateParser, o: AdvancedOptions)
    ensures Finish(o, Found(store, json, parseDate, o)).totalFound ==
      Count(ScanPrefix(store, ConversationPrefix), QualifiesFn(store, json, parseDate, o))
    ensures forall k :: (0 <= k < |ScanPrefix(store, ConversationPrefix)| &&
      Qualifies(store, json, parseDate, o, ScanPrefix(store, ConversationPrefix)[k])) ==>
        var e := Candidate(store, json, ScanPrefix(store, ConversationPrefix)[k]).value;
        e in Found(store, json, parseDate, o)
        && (0 <= LimitOption(o) && Finish(o, Found(store, json, parseDate, o)).totalFound <= LimitOption(o) ==>
          e in Finish(o, Found(store, json, parseDate, o)).conversations)
  {
    var rows := ScanPrefix(store, ConversationPrefix);
    var step := StepFn(store, json, parseDate, o);
    var p := QualifiesFn(store, json, parseDate, o);
    forall k | 0 <= k < |rows| ensures |step(rows[k])| == (if p(rows[k]) then 1 else 0) {
      assert step(rows[k]) == Step(store, json, parseDate, o, rows[k]);
    }
    GatherCount(rows, step, p);
    var found := Found(store, json, parseDate, o);
    var r := Finish(o, found);
    forall k | 0 <= k < |rows| && Qualifies(store, json, parseDate, o, rows[k])
      ensures var e := Candidate(store, json, rows[k]).value;
        e in found && (0 <= LimitOption(o) && r.totalFound <= LimitOption(o) ==> e in r.conversations)
    {
      var e := Candidate(store, json, rows[k]).value;
      FoundEntry(store, json, parseDate, o, rows, e);
      if 0 <= LimitOption(o) && r.totalFound <= LimitOption(o) {
        assert multiset(found)[e] > 0;
        assert multiset(r.conversations)[e] > 0;
      }
    }
  }

  /** Sorting by message count: the returned counts never increase with 'desc' and never decrease with 'asc'. */
  lemma ByMessageCount(store: Store, json: Json, parseDate: DateParser, o: AdvancedOptions)
    requires o.sortBy == Some("message_count") && 0 <= LimitOption(o)
    ensures var r := Finish(o, Found(store, json, parseDate, o)).conversations;
      (SortOrderOption(o) == "desc" ==> forall i, j :: 0 <= i < j < |r| ==> r[i].messageCount >= r[j].messageCount)
      && (SortOrderOption(o) != "desc" ==> forall i, j :: 0 <= i < j < |r| ==> r[i].messageCount <= r[j].messageCount)
  {
    var found := Found(store, json, parseDate, o);
    ComparatorConsistent("message_count", SortOrderOption(o), found);
    SortedByCount(Finish(o, found).conversations, SortOrderOption(o));
  }

  /**
   * Sorting by message count, nothing left out beats what is returned: with 'desc' no conversation
   * left out has more messages than a returned one, and with 'asc' none has fewer.
   */
  lemma TopByMessageCount(store: Store, json: Json, parseDate: DateParser, o: AdvancedOptions)
    requires o.sortBy == Some("message_count")
    ensures var found := Found(store, json, parseDate, o);
      var r := Finish(o, found).conversations;
      (SortOrderOption(o) == "desc" ==>
         forall i, x :: 0 <= i < |r| && x in multiset(found) - multiset(r) ==> r[i].messageCount >= x.messageCount)
      && (SortOrderOption(o) != "desc" ==>
         forall i, x :: 0 <= i < |r| && x in multiset(found) - multiset(r) ==> r[i].messageCount <= x.messageCount)
  {
    var found := Found(store, json, parseDate, o);
    ComparatorConsistent("message_count", SortOrderOption(o), found);
    TopByCount(Finish(o, found).conversations, multiset(found), SortOrderOption(o));
  }

  /** The result never holds more than the limit, and `returned` is its size. */
  lemma WithinLimit(store: Store, json: Json, parseDate: DateParser, o: AdvancedOptions)
    requires 0 <= LimitOption(o)
    ensures var r := Finish(o, Found(store, json, parseDate, o));
      |r.conversations| == r.returned <= LimitOption(o) && r.returned <= r.totalFound
  {
  }
}
