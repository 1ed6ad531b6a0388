/** The message tools of src/tools/messages.ts: getMessage, listMessages and getMessageStats. */
module MessageTools {
  import opened Wrappers
  import opened Text
  import opened Records
  import opened Keys
  import opened Summaries
  import opened Scans
  import opened ToolCommon

  const NoTextContent: string := "[No text content]"

  /** The default size of a listing. */
  const ListLimit: int := 100

  // ----- getMessage -----

  /** `{ ...data, messageId }`: the stored message and the id reported for it. */
  datatype MessageView = MessageView(data: Message, messageId: string)

  /** The id reported for a message: its own `bubbleId` when non-empty, else the fallback. */
  function ReportedId(m: Message, fallback: string): (id: string)
    ensures Truthy(m.bubbleId) ==> id == m.bubbleId.value
    ensures !Truthy(m.bubbleId) ==> id == fallback
  {
    if Truthy(m.bubbleId) then m.bubbleId.value else fallback
  }

  /**
   * getMessage: the message under `bubbleId:<conversation>:<message>`. A missing, empty or 'null'
   * value throws the not-found error; malformed JSON throws `SyntaxError`, and the JSON `null`
   * throws `TypeError` when its `bubbleId` is read.
   */
  function GetMessage(store: Store, json: Json, conversationId: string, messageId: string): (r: Result<MessageView>)
    ensures var v := LookupValue(store, MakeMessageKey(conversationId, messageId));
      (Absent(v) <==> r == Err(NotFound("Message", messageId, conversationId)))
      && (!Absent(v) ==> match json.message(v.value)
                         case Malformed => r == Err(SyntaxError)
                         case JsonNull => r == Err(TypeError)
                         case Value(m) => r == Ok(MessageView(m, ReportedId(m, messageId))))
  {
    var v := LookupValue(store, MakeMessageKey(conversationId, messageId));
    if Absent(v) then Err(NotFound("Message", messageId, conversationId))
    else
      match json.message(v.value)
      case Malformed => Err(SyntaxError)
      case JsonNull => Err(TypeError)
      case Value(m) => Ok(MessageView(m, ReportedId(m, messageId)))
  }

  // ----- listMessages -----

  /** The projection of a message in the listings. */
  datatype MessageSummary = MessageSummary(
    messageId: Option<string>,
    role: Role,
    text: string,
    hasCodeBlocks: bool,
    hasToolResults: bool,
    isAgentic: bool,
    tokenCount: Option<TokenCount>)

  /** `text?.substring(0, 200) || '[No text content]'` */
  function Snippet(text: Option<string>): (r: string)
    ensures Truthy(text) ==> r != "" && |r| <= PreviewLength && StartsWith(text.value, r)
    ensures Truthy(text) && |text.value| <= PreviewLength ==> r == text.value
    ensures !Truthy(text) ==> r == NoTextContent
  {
    if Truthy(text) then Take(text.value, PreviewLength) else NoTextContent
  }

  /** `(arr?.length || 0) > 0` */
  predicate NonEmpty(arr: Option<seq<Item>>)
  {
    LengthOr0(arr) > 0
  }

  function Project(m: Message, id: Option<string>): (r: MessageSummary)
    ensures r.messageId == id && r.tokenCount == m.tokenCount
    ensures r.role == User <==> m.msgType == Some(1)
    ensures r.hasCodeBlocks <==> m.codeBlocks.Some? && m.codeBlocks.value != []
    ensures r.hasToolResults <==> m.toolResults.Some? && m.toolResults.value != []
    ensures r.isAgentic <==> m.isAgentic == Some(true)
  {
    MessageSummary(id, RoleOf(m.msgType), Snippet(m.text), NonEmpty(m.codeBlocks), NonEmpty(m.toolResults),
                   m.isAgentic == Some(true), m.tokenCount)
  }

  /** `parsed.bubbleId || row.key.split(':')[2]` */
  function ListedId(m: Message, key: string): (r: Option<string>)
    ensures Truthy(m.bubbleId) ==> r == m.bubbleId
    ensures !Truthy(m.bubbleId) ==> (r.Some? <==> |Split(key, ':')| > 2)
    ensures !Truthy(m.bubbleId) && r.Some? ==> ':' !in r.value
  {
    if Truthy(m.bubbleId) then m.bubbleId else At(Split(key, ':'), 2)
  }

  /**
   * What one row adds: its projection when it holds a message; nothing for a missing, empty or
   * 'null' value, malformed JSON, or the JSON `null` (reading its `bubbleId` throws in the `try`).
   */
  function Step(json: Json, row: Row): (r: seq<MessageSummary>)
    ensures |r| <= 1
  {
    if Absent(row.value) then []
    else
      match json.message(row.value.value)
      case Value(m) => [Project(m, ListedId(m, row.key))]
      case _ => []
  }

  function StepFn(json: Json): Row -> seq<MessageSummary>
  {
    row => Step(json, row)
  }

  /** The rows a listing reads. */
  function ListedRows(store: Store, conversationId: string, limit: Option<int>): seq<Row>
  {
    FirstRows(store, OwnedPrefix(MessagePrefix, conversationId), limit.GetOr(ListLimit))
  }

  datatype MessageList = MessageList(conversationId: string, count: nat, messages: seq<MessageSummary>)

  /** listMessages */
  method ListMessages(store: Store, json: Json, conversationId: string, limit: Option<int>) returns (r: MessageList)
    ensures r.conversationId == conversationId
    ensures r.messages == Gather(ListedRows(store, conversationId, limit), StepFn(json))
    ensures r.count == |r.messages|
  {
    var rows := ListedRows(store, conversationId, limit);
    var messages: seq<MessageSummary> := [];
    var i := 0;
    while i < |rows|
      invariant 0 <= i <= |rows|
      invariant messages == Gather(rows[..i], StepFn(json))
    {
      assert rows[..i + 1][..i] == rows[..i];
      var row := rows[i];
      if !Absent(row.value) {
        match json.message(row.value.value) {
          case Value(m) =>
            messages := messages + [Project(m, ListedId(m, row.key))];
          case _ =>
        }
      }
      i := i + 1;
    }
    assert rows[..i] == rows;
    r := MessageList(conversationId, |messages|, messages);
  }

  /** A listing holds at most `limit` messages. */
  lemma ListBound(store: Store, json: Json, conversationId: string, limit: Option<int>)
    ensures 0 <= limit.GetOr(ListLimit) ==> |Gather(ListedRows(store, conversationId, limit), StepFn(json))| <= limit.GetOr(ListLimit)
  {
    GatherAtMostOne(ListedRows(store, conversationId, limit), StepFn(json));
  }

  /** Each listed message comes from a row of the conversation whose value decodes to that message. */
  lemma ListedFromRow(store: Store, json: Json, conversationId: string, limit: Option<int>, s: MessageSummary)
    requires s in Gather(ListedRows(store, conversationId, limit), StepFn(json))
    ensures exists row :: (row in store && StartsWith(row.key, OwnedPrefix(MessagePrefix, conversationId))
      && Decoded(json, row).Some? && s == Project(Decoded(json, row).value, ListedId(Decoded(json, row).value, row.key)))
  {
    var rows := ListedRows(store, conversationId, limit);
    GatherFrom(rows, StepFn(json), s);
    var k :| 0 <= k < |rows| && s in StepFn(json)(rows[k]);
    var all := ScanPrefix(store, OwnedPrefix(MessagePrefix, conversationId));
    assert rows[k] == all[k];
    var row := rows[k];
    assert s in Step(json, row);
    assert row in store && StartsWith(row.key, OwnedPrefix(MessagePrefix, conversationId));
  }

  /**
   * The listing and getMessage report the same id for a stored message: reading the message id
   * back from the key gives the requested id when neither id contains ':'.
   */
  lemma ListAndGetAgree(store: Store, json: Json, conversationId: string, messageId: string, v: string, m: Message)
    requires ':' !in conversationId && ':' !in messageId
    requires Lookup(store, MakeMessageKey(conversationId, messageId)) == Some(Row(MakeMessageKey(conversationId, messageId), Some(v)))
    requires !Absent(Some(v)) && json.message(v) == Value(m)
    ensures GetMessage(store, json, conversationId, messageId).Ok?
    ensures Step(json, Row(MakeMessageKey(conversationId, messageId), Some(v)))
      == [Project(m, Some(GetMessage(store, json, conversationId, messageId).value.messageId))]
  {
    FamilyPrefixes();
    LocalIdFromKey(MessagePrefix, conversationId, messageId);
  }

  // ----- getMessageStats -----

  /** The message a sampled row holds; the JSON `null` is skipped since reading its `type` throws. */
  function Decoded(json: Json, row: Row): (r: Option<Message>)
    ensures r.Some? <==> !Absent(row.value) && json.message(row.value.value).Value?
    ensures r.Some? ==> json.message(row.value.value) == Value(r.value)
  {
    if Absent(row.value) then None
    else
      match json.message(row.value.value)
      case Value(m) => Some(m)
      case _ => None
  }

  predicate IsUser(m: Message) { m.msgType == Some(1) }
  predicate IsAssistant(m: Message) { m.msgType == Some(2) }
  predicate IsAgentic(m: Message) { m.isAgentic == Some(true) }
  /** `msg.codeBlocks?.length` is truthy */
  predicate WithCodeBlocks(m: Message) { NonEmpty(m.codeBlocks) }
  predicate WithToolResults(m: Message) { NonEmpty(m.toolResults) }

  /** The rows holding a message with property `p`. */
  function Where(json: Json, p: Message -> bool): Row -> bool
  {
    row => Decoded(json, row).Some? && p(Decoded(json, row).value)
  }

  datatype Breakdown = Breakdown(
    userMessages: nat,
    assistantMessages: nat,
    agenticMessages: nat,
    withCodeBlocks: nat,
    withToolResults: nat)

  datatype MessageStats = MessageStats(totalMessages: nat, sampleSize: nat, sampleBreakdown: Breakdown)

  /** The counters over a sample: how many of its messages have each property. */
  function BreakdownOf(json: Json, rows: seq<Row>): Breakdown
  {
    Breakdown(Count(rows, Where(json, IsUser)), Count(rows, Where(json, IsAssistant)), Count(rows, Where(json, IsAgentic)),
              Count(rows, Where(json, WithCodeBlocks)), Count(rows, Where(json, WithToolResults)))
  }

  /** The first 100 rows of the whole message family. */
  function Sample(store: Store): seq<Row>
  {
    FirstRows(store, MessagePrefix, SampleLimit)
  }

  function StatsOf(store: Store, json: Json): MessageStats
  {
    MessageStats(|ScanPrefix(store, MessagePrefix)|, |Sample(store)|, BreakdownOf(json, Sample(store)))
  }

  /** getMessageStats */
  method GetMessageStats(store: Store, json: Json) returns (r: MessageStats)
    ensures r == StatsOf(store, json)
  {
    var samples := Sample(store);
    var user, assistant, agentic, code, tools := 0, 0, 0, 0, 0;
    var i := 0;
    while i < |samples|
      invariant 0 <= i <= |samples|
      invariant user == Count(samples[..i], Where(json, IsUser))
      invariant assistant == Count(samples[..i], Where(json, IsAssistant))
      invariant agentic == Count(samples[..i], Where(json, IsAgentic))
      invariant code == Count(samples[..i], Where(json, WithCodeBlocks))
      invariant tools == Count(samples[..i], Where(json, WithToolResults))
    {
      var row := samples[i];
      CountNext(samples, i, Where(json, IsUser));
      CountNext(samples, i, Where(json, IsAssistant));
      CountNext(samples, i, Where(json, IsAgentic));
      CountNext(samples, i, Where(json, WithCodeBlocks));
      CountNext(samples, i, Where(json, WithToolResults));
      var msg := Decoded(json, row);
      if msg.Some? {
        if IsUser(msg.value) { user := user + 1; }
        if IsAssistant(msg.value) { assistant := assistant + 1; }
        if IsAgentic(msg.value) { agentic := agentic + 1; }
        if WithCodeBlocks(msg.value) { code := code + 1; }
        if WithToolResults(msg.value) { tools := tools + 1; }
      }
      i := i + 1;
    }
    assert samples[..i] == samples;
    r := MessageStats(|ScanPrefix(store, MessagePrefix)|, |samples|, Breakdown(user, assistant, agentic, code, tools));
  }

  /**
   * The sample holds at most 100 of the family's rows; no counter exceeds it, and since a message
   * has one type, users and assistants together do not either.
   */
  lemma StatsBounds(store: Store, json: Json)
    ensures var s := StatsOf(store, json);
      s.sampleSize <= SampleLimit && s.sampleSize <= s.totalMessages
      && s.sampleBreakdown.userMessages + s.sampleBreakdown.assistantMessages <= s.sampleSize
      && s.sampleBreakdown.agenticMessages <= s.sampleSize
      && s.sampleBreakdown.withCodeBlocks <= s.sampleSize && s.sampleBreakdown.withToolResults <= s.sampleSize
  {
    var rows := Sample(store);
    forall k | 0 <= k < |rows|
      ensures !(Where(json, IsUser)(rows[k]) && Where(json, IsAssistant)(rows[k]))
    {
      var d := Decoded(json, rows[k]);
      if d.Some? {
        assert IsUser(d.value) ==> !IsAssistant(d.value);
      }
    }
    CountDisjoint(rows, Where(json, IsUser), Where(json, IsAssistant));
  }
}
