/**
 * The export script scripts/extract_conversations.py: it reads every conversation record,
 * gives each the id its key names, summarises the inline messages, and writes per-conversation
 * files, an index with a preview of each conversation, and a README listing the ten longest.
 * The contents and names of those files are modelled; writing them is not.
 */
module ExtractScript {
  import opened Wrappers
  import opened Text
  import opened Records
  import opened Keys
  import opened Summaries
  import opened Scans
  import opened Sorting

  // ----- extract_conversations -----

  /** `key.split(':', 1)[1]`: everything after the first ':', an `IndexError` when there is none. */
  function ComposerIdOf(key: string): (r: Result<string>)
    ensures r.Err? <==> ':' !in key
    ensures r.Err? ==> r.error == IndexError
    ensures r.Ok? ==> exists i :: 0 <= i < |key| && key[i] == ':' && ':' !in key[..i] && r.value == key[i + 1..]
  {
    var i := IndexOf(key, ':');
    if i == -1 then Err(IndexError) else Ok(key[i + 1..])
  }

  /** A conversation key names the id after its prefix, colons in the id included. */
  lemma ComposerIdOfKey(id: string)
    ensures ComposerIdOf(MakeConversationKey(id)) == Ok(id)
  {
    var head := "composerData";
    assert ':' !in head;
    assert MakeConversationKey(id) == head + [':'] + id;
    IndexOfConcat(head, ':', id);
    assert (head + [':'] + id)[|head| + 1..] == id;
  }

  /**
   * One row of the loop: an exception, nothing for a row the script counts as null (a NULL or
   * 'null' value, or malformed JSON), or the record with `composerId` set. The JSON `null` is not
   * a dict, so assigning its `composerId` raises `TypeError`.
   */
  function Read(json: Json, row: Row): (r: Result<Option<Conversation>>)
    ensures r.Err? ==> r.error == IndexError || r.error == TypeError
    ensures r.Ok? ==> ComposerIdOf(row.key).Ok? && (r.value.Some? ==> r.value.value.composerId == Some(ComposerIdOf(row.key).value))
  {
    match ComposerIdOf(row.key)
    case Err(e) => Err(e)
    case Ok(id) =>
      if row.value.None? || row.value.value == "null" then Ok(None)
      else
        match json.conversation(row.value.value)
        case Malformed => Ok(None)
        case JsonNull => Err(TypeError)
        case Value(c) => Ok(Some(c.(composerId := Some(id))))
  }

  function ReadFn(json: Json): Row -> Result<seq<Conversation>>
  {
    row => match Read(json, row)
           case Err(e) => Err(e)
           case Ok(None) => Ok([])
           case Ok(Some(c)) => Ok([c])
  }

  /** The rows `null_count` counts. */
  function Unreadable(json: Json): Row -> bool
  {
    row => Read(json, row) == Ok(None)
  }

  function Readable(json: Json): Row -> bool
  {
    row => Read(json, row).Ok? && Read(json, row).value.Some?
  }

  datatype Extraction = Extraction(conversations: seq<Conversation>, nullCount: nat)

  /** The records in row order and the number of rows counted as null, or the first exception. */
  function Extract(json: Json, rows: seq<Row>): Result<Extraction>
  {
    match Collect(rows, ReadFn(json))
    case Err(e) => Err(e)
    case Ok(conversations) => Ok(Extraction(conversations, Count(rows, Unreadable(json))))
  }

  /** extract_conversations, over the conversation family of the store in the row source's order. */
  method ExtractConversations(json: Json, store: Store) returns (r: Result<Extraction>)
    ensures r == Extract(json, ScanPrefix(store, ConversationPrefix))
  {
    var rows := ScanPrefix(store, ConversationPrefix);
    var step := ReadFn(json);
    var unreadable := Unreadable(json);
    var conversations: seq<Conversation> := [];
    var nullCount := 0;
    var i := 0;
    while i < |rows|
      invariant 0 <= i <= |rows|
      invariant Collect(rows[..i], step) == Ok(conversations)
      invariant nullCount == Count(rows[..i], unreadable)
    {
      var row := rows[i];
      var read := ReadRow(json, row);
      ReadStep(json, rows, i);
      if read.Err? {
        CollectFailureSticks(rows, i + 1, step);
        return Err(read.error);
      }
      if read.value.None? {
        nullCount := nullCount + 1;
      } else {
        conversations := conversations + [read.value.value];
      }
      i := i + 1;
    }
    assert rows[..i] == rows;
    r := Ok(Extraction(conversations, nullCount));
  }

  /** One more row: the records gathered and the null count grow by what that row reads as. */
  lemma ReadStep(json: Json, rows: seq<Row>, i: nat)
    requires i < |rows|
    ensures var read := Read(json, rows[i]);
      var before := Collect(rows[..i], ReadFn(json));
      (before.Ok? ==> Collect(rows[..i + 1], ReadFn(json)) ==
                        match read
                        case Err(e) => Err(e)
                        case Ok(None) => Ok(before.value)
                        case Ok(Some(c)) => Ok(before.value + [c]))
      && Count(rows[..i + 1], Unreadable(json)) == Count(rows[..i], Unreadable(json)) + (if read == Ok(None) then 1 else 0)
  {
    var prefix := rows[..i + 1];
    assert prefix[..|prefix| - 1] == rows[..i] && prefix[|prefix| - 1] == rows[i];
    var read := Read(json, rows[i]);
    var before := Collect(rows[..i], ReadFn(json));
    assert Unreadable(json)(rows[i]) == (read == Ok(None));
    if before.Ok? {
      match read {
        case Err(e) =>
          assert ReadFn(json)(rows[i]) == Err(e);
        case Ok(None) =>
          assert ReadFn(json)(rows[i]) == Ok([]);
          assert before.value + [] == before.value;
        case Ok(Some(c)) =>
          assert ReadFn(json)(rows[i]) == Ok([c]);
      }
    }
  }

  /** The loop body: take the id, skip a null value, parse and name the record. */
  method ReadRow(json: Json, row: Row) returns (r: Result<Option<Conversation>>)
    ensures r == Read(json, row)
  {
    var id := ComposerIdOf(row.key);
    if id.Err? {
      return Err(id.error);
    }
    if row.value.None? || row.value.value == "null" {
      return Ok(None);
    }
    match json.conversation(row.value.value) {
      case Malformed =>
        r := Ok(None);
      case JsonNull =>
        r := Err(TypeError);
      case Value(c) =>
        r := Ok(Some(c.(composerId := Some(id.value))));
    }
  }

  /** Rows split by a predicate and its negation: the two counts make up every row. */
  lemma {:induction false} CountSplit(rows: seq<Row>, p: Row -> bool, q: Row -> bool)
    requires forall k :: 0 <= k < |rows| ==> (p(rows[k]) <==> !q(rows[k]))
    ensures Count(rows, p) + Count(rows, q) == |rows|
  {
    if |rows| > 0 {
      var init := rows[..|rows| - 1];
      assert forall k :: 0 <= k < |init| ==> init[k] == rows[k];
      CountSplit(init, p, q);
    }
  }

  /**
   * Every row is accounted for exactly once: it becomes a record or is counted as null. The
   * loop fails exactly when some row's key has no ':' or its value parses to `null`.
   */
  lemma EveryRowAccounted(json: Json, rows: seq<Row>)
    ensures Extract(json, rows).Err? <==> exists k :: 0 <= k < |rows| && Read(json, rows[k]).Err?
    ensures Extract(json, rows).Ok? ==>
      |Extract(json, rows).value.conversations| + Extract(json, rows).value.nullCount == |rows|
  {
    var step := ReadFn(json);
    CollectFails(rows, step);
    forall k | 0 <= k < |rows| ensures step(rows[k]).Err? <==> Read(json, rows[k]).Err? {
    }
    if Collect(rows, step).Ok? {
      var plain := (row: Row) => if step(row).Ok? then step(row).value else [];
      forall k | 0 <= k < |rows| ensures step(rows[k]) == Ok(plain(rows[k])) {
        assert !step(rows[k]).Err?;
      }
      CollectWithoutFailure(rows, step, plain);
      forall k | 0 <= k < |rows| ensures |plain(rows[k])| == (if Readable(json)(rows[k]) then 1 else 0) {
      }
      GatherCount(rows, plain, Readable(json));
      CountSplit(rows, Readable(json), Unreadable(json));
    }
  }

  /** Over the conversation family every key has a ':', and its id is what follows the prefix. */
  lemma FamilyKeys(store: Store)
    ensures var rows := ScanPrefix(store, ConversationPrefix);
      forall k :: 0 <= k < |rows| ==> (ComposerIdOf(rows[k].key) == Ok(rows[k].key[|ConversationPrefix|..])
        && rows[k].key == MakeConversationKey(rows[k].key[|ConversationPrefix|..]))
  {
    var rows := ScanPrefix(store, ConversationPrefix);
    forall k | 0 <= k < |rows| ensures ComposerIdOf(rows[k].key) == Ok(rows[k].key[|ConversationPrefix|..])
      && rows[k].key == MakeConversationKey(rows[k].key[|ConversationPrefix|..])
    {
      FamilyKey(rows[k].key);
    }
  }

  lemma FamilyKey(key: string)
    requires StartsWith(key, ConversationPrefix)
    ensures ComposerIdOf(key) == Ok(key[|ConversationPrefix|..])
    ensures key == MakeConversationKey(key[|ConversationPrefix|..])
  {
    assert key == ConversationPrefix + key[|ConversationPrefix|..];
    ComposerIdOfKey(key[|ConversationPrefix|..]);
  }

  /** Over rows whose keys all have a ':', only a value that parses to `null` fails the loop. */
  lemma FailsOnNull(json: Json, rows: seq<Row>)
    requires forall k :: 0 <= k < |rows| ==> ComposerIdOf(rows[k].key).Ok?
    ensures Extract(json, rows).Err? ==> Extract(json, rows).error == TypeError
  {
    var step := ReadFn(json);
    CollectFails(rows, step);
    if Collect(rows, step).Err? {
      var k :| 0 <= k < |rows| && step(rows[k]) == Err(Collect(rows, step).error);
      assert step(rows[k]) == Err(Read(json, rows[k]).error);
    }
  }

  /** Over the conversation family only a value that parses to `null` fails the loop. */
  lemma FamilyFailsOnNull(json: Json, store: Store)
    ensures Extract(json, ScanPrefix(store, ConversationPrefix)).Err? ==>
      Extract(json, ScanPrefix(store, ConversationPrefix)).error == TypeError
  {
    var rows := ScanPrefix(store, ConversationPrefix);
    FamilyKeys(store);
    FailsOnNull(json, rows);
  }

  /** Over the conversation family every record carries the id its key names after the prefix. */
  lemma FamilyIds(json: Json, store: Store)
    requires Extract(json, ScanPrefix(store, ConversationPrefix)).Ok?
    ensures forall c :: c in Extract(json, ScanPrefix(store, ConversationPrefix)).value.conversations ==>
      c.composerId.Some? && exists row :: row in store && row.key == MakeConversationKey(c.composerId.value)
  {
    var rows := ScanPrefix(store, ConversationPrefix);
    var records := Collect(rows, ReadFn(json)).value;
    assert Extract(json, rows).value.conversations == records;
    forall c: Conversation | c in records
      ensures c.composerId.Some? && exists row :: row in store && row.key == MakeConversationKey(c.composerId.value)
    {
      CollectFrom(rows, ReadFn(json), c);
      var k :| 0 <= k < |rows| && ReadFn(json)(rows[k]).Ok? && c in ReadFn(json)(rows[k]).value;
      ReadYields(json, rows[k], c);
      FamilyKey(rows[k].key);
      assert rows[k] in store;
    }
  }

  /** Each record gathered is what some row reads as. */
  lemma RecordsFromRows(json: Json, rows: seq<Row>)
    requires Collect(rows, ReadFn(json)).Ok?
    ensures forall c :: c in Collect(rows, ReadFn(json)).value ==> exists k :: 0 <= k < |rows| && Read(json, rows[k]) == Ok(Some(c))
  {
    forall c: Conversation | c in Collect(rows, ReadFn(json)).value
      ensures exists k :: 0 <= k < |rows| && Read(json, rows[k]) == Ok(Some(c))
    {
      CollectFrom(rows, ReadFn(json), c);
      var k :| 0 <= k < |rows| && ReadFn(json)(rows[k]).Ok? && c in ReadFn(json)(rows[k]).value;
      ReadYields(json, rows[k], c);
    }
  }

  lemma ReadYields(json: Json, row: Row, c: Conversation)
    requires ReadFn(json)(row).Ok? && c in ReadFn(json)(row).value
    ensures Read(json, row) == Ok(Some(c))
  {
  }

  // ----- create_summary -----

  /**
   * The text the script takes from an inline message: its text, or for an assistant message
   * (type 2) without one the joined raw texts of its text parts.
   */
  function ScriptText(m: Message): string
  {
    if m.msgType == Some(2) && !Truthy(m.text) then Join(TextParts(m.responseParts.GetOr([])), "")
    else m.text.GetOr("")
  }

  /**
   * For user and assistant messages the script takes the server's text. A message of any other
   * type, which the server drops, the script keeps with its own text, as an assistant message.
   */
  lemma ScriptTextRule(m: Message)
    ensures m.msgType == Some(1) || m.msgType == Some(2) ==> ScriptText(m) == InlineText(m)
    ensures m.msgType != Some(1) && m.msgType != Some(2) ==> ScriptText(m) == m.text.GetOr("") && RoleOf(m.msgType) == Assistant
  {
  }

  /** The messages kept: every inline entry with a non-empty text, in order. */
  function ScriptMessages(entries: seq<Message>): (r: seq<MessageInfo>)
    ensures |r| <= |entries|
    ensures AllHaveText(r)
  {
    if |entries| == 0 then []
    else
      var last := entries[|entries| - 1];
      ScriptMessages(entries[..|entries| - 1])
        + (if ScriptText(last) != "" then [MessageInfo(RoleOf(last.msgType), ScriptText(last))] else [])
  }

  datatype ScriptSummary = ScriptSummary(composerId: Option<string>, messageCount: nat, messages: seq<MessageInfo>)

  /** create_summary, specified: the record's id, and the kept messages and their number. */
  function CreateSummary(conv: Conversation): ScriptSummary
  {
    var messages := ScriptMessages(conv.conversation.GetOr([]));
    ScriptSummary(conv.composerId, |messages|, messages)
  }

  /** create_summary */
  method Summarise(conv: Conversation) returns (s: ScriptSummary)
    ensures s == CreateSummary(conv)
  {
    var entries := conv.conversation.GetOr([]);
    var messages: seq<MessageInfo> := [];
    var i := 0;
    while i < |entries|
      invariant 0 <= i <= |entries|
      invariant messages == ScriptMessages(entries[..i])
    {
      assert entries[..i + 1][..i] == entries[..i] && entries[..i + 1][i] == entries[i];
      var msg := entries[i];
      var text := msg.text.GetOr("");
      if msg.msgType == Some(2) && text == "" {
        var textParts := CollectTextParts(msg.responseParts.GetOr([]));
        text := Join(textParts, "");
      }
      if text != "" {
        messages := messages + [MessageInfo(RoleOf(msg.msgType), text)];
      }
      i := i + 1;
    }
    assert entries[..i] == entries;
    s := ScriptSummary(conv.composerId, |messages|, messages);
  }

  /** When every entry is a user or an assistant message, the script keeps what the server keeps. */
  lemma {:induction false} ScriptAgreesWithServer(entries: seq<Message>)
    requires forall k :: 0 <= k < |entries| ==> entries[k].msgType == Some(1) || entries[k].msgType == Some(2)
    ensures ScriptMessages(entries) == InlineMessages(entries)
  {
    if |entries| > 0 {
      var init := entries[..|entries| - 1];
      assert forall k :: 0 <= k < |init| ==> init[k] == entries[k];
      ScriptAgreesWithServer(init);
      ScriptTextRule(entries[|entries| - 1]);
    }
  }

  /** A message of type 3 with a text is kept by the script and dropped by the server. */
  lemma OtherTypeKept()
    ensures var m := EmptyMessage.(msgType := Some(3), text := Some("x"));
      ScriptMessages([m]) == [MessageInfo(Assistant, "x")] && InlineMessages([m]) == []
  {
    var m := EmptyMessage.(msgType := Some(3), text := Some("x"));
    assert [m][..0] == [];
  }

  /** The summary counts exactly the messages it holds, each of them with text. */
  lemma SummaryCounts(conv: Conversation)
    ensures CreateSummary(conv).messageCount == |CreateSummary(conv).messages|
    ensures forall j :: 0 <= j < |CreateSummary(conv).messages| ==> CreateSummary(conv).messages[j].text != ""
    ensures CreateSummary(conv).messageCount <= |conv.conversation.GetOr([])|
  {
  }

  // ----- save_conversations -----

  const PreviewLength: nat := 100
  const EmptyPreview: string := "Empty conversation"

  /** An entry of conversations_index.json. */
  datatype IndexRow = IndexRow(composerId: string, messageCount: nat, preview: string)

  /**
   * The preview: the first kept message cut to 100 characters, with '...' appended when the cut
   * text is 100 characters long, which is as soon as the message has at least 100; without
   * messages, 'Empty conversation'.
   */
  function Preview(s: ScriptSummary): (p: string)
    ensures |s.messages| == 0 ==> p == EmptyPreview
    ensures |s.messages| > 0 ==> p == (var t := s.messages[0].text;
                                       if |t| >= PreviewLength then t[..PreviewLength] + "..." else t)
    ensures |p| <= PreviewLength + 3
  {
    var first := if |s.messages| > 0 then Take(s.messages[0].text, PreviewLength) else EmptyPreview;
    if |first| == PreviewLength then first + "..." else first
  }

  /** `conv.get('composerId', 'unknown')` */
  function IdOrUnknown(conv: Conversation): string
  {
    conv.composerId.GetOr("unknown")
  }

  function IndexRowOf(conv: Conversation): (e: IndexRow)
    ensures e.messageCount == CreateSummary(conv).messageCount && e.preview == Preview(CreateSummary(conv))
  {
    var s := CreateSummary(conv);
    IndexRow(IdOrUnknown(conv), s.messageCount, Preview(s))
  }

  /** The index: one entry per conversation, in order. */
  function Index(conversations: seq<Conversation>): (index: seq<IndexRow>)
    ensures |index| == |conversations|
    ensures forall j :: 0 <= j < |index| ==> index[j] == IndexRowOf(conversations[j])
  {
    seq(|conversations|, j requires 0 <= j < |conversations| => IndexRowOf(conversations[j]))
  }

  /** The loop of save_conversations that builds the index. */
  method BuildIndex(conversations: seq<Conversation>) returns (index: seq<IndexRow>)
    ensures index == Index(conversations)
  {
    index := [];
    var i := 0;
    while i < |conversations|
      invariant 0 <= i <= |conversations|
      invariant index == Index(conversations[..i])
    {
      var conv := conversations[i];
      var summary := Summarise(conv);
      var entry := IndexRow(IdOrUnknown(conv), summary.messageCount, Preview(summary));
      index := index + [entry];
      i := i + 1;
    }
    assert conversations[..i] == conversations;
  }

  /** The files written for a conversation, by name within the output directory. */
  function FullName(composerId: string): string
  {
    "conversation_" + composerId + "_full.json"
  }

  function SummaryName(composerId: string): string
  {
    "conversation_" + composerId + "_summary.json"
  }

  const IndexName: string := "conversations_index.json"
  const ReadmeName: string := "README.md"

  /** Distinct ids get distinct files, and a full file is never a summary file. */
  lemma NamesDistinct(a: string, b: string)
    ensures FullName(a) == FullName(b) ==> a == b
    ensures SummaryName(a) == SummaryName(b) ==> a == b
    ensures FullName(a) != SummaryName(b)
  {
    var p := "conversation_";
    if FullName(a) == FullName(b) {
      assert a == FullName(a)[|p|..|FullName(a)| - |"_full.json"|];
    }
    if SummaryName(a) == SummaryName(b) {
      assert a == SummaryName(a)[|p|..|SummaryName(a)| - |"_summary.json"|];
    }
    var f := FullName(a);
    var s := SummaryName(b);
    assert f[|f| - 6] == 'l';
    assert s[|s| - 6] == 'y';
  }

  /** `sorted(index, key=messageCount, reverse=True)`: a stable sort, larger counts first. */
  function MostMessagesFirst(): Comparator<IndexRow>
  {
    (a: IndexRow, b: IndexRow) => b.messageCount - a.messageCount
  }

  const TopCount: nat := 10

  /** The conversations the README lists: the first ten of the sorted index. */
  function Top(index: seq<IndexRow>): seq<IndexRow>
  {
    FirstTen(Sort(MostMessagesFirst(), index))
  }

  /** `s[:10]` */
  function FirstTen(s: seq<IndexRow>): seq<IndexRow>
  {
    s[..if |s| <= TopCount then |s| else TopCount]
  }

  /** The README lists min(10, n) entries of the index, with non-increasing message counts. */
  lemma TopTenOrdered(index: seq<IndexRow>)
    ensures |Top(index)| == (if |index| <= TopCount then |index| else TopCount)
    ensures forall i, j :: 0 <= i < j < |Top(index)| ==> Top(index)[i].messageCount >= Top(index)[j].messageCount
  {
    var sorted := Sort(MostMessagesFirst(), index);
    ByCountSorted(index);
    TopOfSorted(index, sorted);
  }

  /** The README lists entries of the index, and every entry it leaves out has no more messages than any it lists. */
  lemma TopTenDominates(index: seq<IndexRow>)
    ensures multiset(Top(index)) <= multiset(index)
    ensures forall x :: x in multiset(index) - multiset(Top(index)) ==>
      forall j :: 0 <= j < |Top(index)| ==> x.messageCount <= Top(index)[j].messageCount
  {
    var sorted := Sort(MostMessagesFirst(), index);
    ByCountSorted(index);
    TopOfSorted(index, sorted);
  }

  /** The sorted index is a reordering of the index with non-increasing counts. */
  lemma ByCountSorted(index: seq<IndexRow>)
    ensures multiset(Sort(MostMessagesFirst(), index)) == multiset(index)
    ensures var s := Sort(MostMessagesFirst(), index);
      forall i, j :: 0 <= i < j < |s| ==> s[i].messageCount >= s[j].messageCount
  {
    SortCorrect(MostMessagesFirst(), index);
    ByCountConsistent(index);
    CountsDescend(Sort(MostMessagesFirst(), index));
  }

  /** The first ten of a reordering of `index` with non-increasing counts. */
  lemma TopOfSorted(index: seq<IndexRow>, sorted: seq<IndexRow>)
    requires multiset(sorted) == multiset(index)
    requires forall i, j :: 0 <= i < j < |sorted| ==> sorted[i].messageCount >= sorted[j].messageCount
    ensures var top := FirstTen(sorted);
      |top| == (if |index| <= TopCount then |index| else TopCount)
      && multiset(top) <= multiset(index)
      && (forall i, j :: 0 <= i < j < |top| ==> top[i].messageCount >= top[j].messageCount)
      && (forall x :: x in multiset(index) - multiset(top) ==>
            forall j :: 0 <= j < |top| ==> x.messageCount <= top[j].messageCount)
  {
    assert |sorted| == |multiset(sorted)| == |index|;
    SplitSorted(sorted, if |sorted| <= TopCount then |sorted| else TopCount);
  }

  /** Comparing counts is a consistent order. */
  lemma ByCountConsistent(s: seq<IndexRow>)
    ensures Consistent(MostMessagesFirst(), s)
  {
    var cmp := MostMessagesFirst();
    assert forall a, b :: cmp(a, b) == b.messageCount - a.messageCount;
  }

  /** Sorting by `MostMessagesFirst` puts counts in non-increasing order. */
  lemma CountsDescend(s: seq<IndexRow>)
    requires Sorted(MostMessagesFirst(), s)
    ensures forall i, j :: 0 <= i < j < |s| ==> s[i].messageCount >= s[j].messageCount
  {
    var cmp := MostMessagesFirst();
    forall i, j | 0 <= i < j < |s| ensures s[i].messageCount >= s[j].messageCount {
      assert cmp(s[i], s[j]) <= 0;
    }
  }

  /** Cutting a sequence with non-increasing counts: nothing after the cut outnumbers anything before it. */
  lemma SplitSorted(s: seq<IndexRow>, n: nat)
    requires n <= |s|
    requires forall i, j :: 0 <= i < j < |s| ==> s[i].messageCount >= s[j].messageCount
    ensures multiset(s[..n]) <= multiset(s)
    ensures forall x :: x in multiset(s) - multiset(s[..n]) ==> forall j :: 0 <= j < n ==> x.messageCount <= s[j].messageCount
  {
    assert s == s[..n] + s[n..];
    assert multiset(s) == multiset(s[..n]) + multiset(s[n..]);
    forall x | x in multiset(s) - multiset(s[..n]) ensures forall j :: 0 <= j < n ==> x.messageCount <= s[j].messageCount {
      assert x in multiset(s[n..]);
      var m :| 0 <= m < |s[n..]| && s[n..][m] == x;
      assert s[n + m] == x;
    }
  }

  /** One README entry: `{i}. **{id}** ({count} messages)` and the preview below it. */
  function ReadmeEntry(position: nat, e: IndexRow): string
  {
    NatToString(position) + ". **" + e.composerId + "** (" + NatToString(e.messageCount) + " messages)\n"
      + "   - " + e.preview + "\n\n"
  }

  function ReadmeEntries(top: seq<IndexRow>, from: nat): string
    decreases |top|
  {
    if |top| == 0 then "" else ReadmeEntry(from, top[0]) + ReadmeEntries(top[1..], from + 1)
  }

  function ReadmeHeader(total: nat): string
  {
    "# Cursor Conversations Export\n\n" + "Total conversations: " + NatToString(total) + "\n\n"
      + "## Conversations by Message Count\n\n"
  }

  /** README.md: the total, then the listed conversations numbered from 1. */
  function Readme(conversations: seq<Conversation>): (text: string)
    ensures StartsWith(text, ReadmeHeader(|conversations|))
  {
    var header := ReadmeHeader(|conversations|);
    var text := header + ReadmeEntries(Top(Index(conversations)), 1);
    assert text[..|header|] == header;
    text
  }
}
