/**
 * The record reader and summariser the server of src/index.ts keeps for itself: its own
 * parseConversation, which never throws, and a getConversationSummary that reads only the inline
 * `conversation` array and keeps each message's `bubbleId`.
 */
module IndexSummary {
  import opened Wrappers
  import opened Text
  import opened Records
  import opened Summaries
  import LibSummary
  import ToolsSummary

  /** `s.split(c, limit)`: the pieces of `s`, but no more than `limit` of them. */
  function SplitCapped(s: string, c: char, limit: nat): (parts: seq<string>)
    ensures |parts| <= limit && |parts| <= |Split(s, c)|
    ensures parts == Split(s, c)[..|parts|]
  {
    var all := Split(s, c);
    if |all| <= limit then all else all[..limit]
  }

  /**
   * parseConversation: the parsed record, or nothing for a missing, empty or 'null' value, for
   * malformed JSON, and for the JSON `null` (the failing assignment is caught). The id it assigns,
   * `key.split(':', 1)[1]`, is always `undefined`: a split capped at one piece has no second one.
   */
  function ParseConversation(json: Json, key: string, value: Option<string>): (r: Option<Conversation>)
    ensures r.Some? <==> !Absent(value) && json.conversation(value.value).Value?
    ensures r.Some? ==> r.value == json.conversation(value.value).value.(composerId := None)
  {
    if Absent(value) then None
    else
      match json.conversation(value.value)
      case Value(c) => Some(c.(composerId := At(SplitCapped(key, ':', 1), 1)))
      case _ => None
  }

  /**
   * The server's reader and the throwing reader of src/lib agree on every record both accept,
   * except that the server loses the id; where src/lib throws, the server reads nothing. (The
   * text 'null' parses to the JSON `null`, as it does for `JSON.parse`.)
   */
  lemma ParseAgreesWithLib(json: Json, key: string, value: Option<string>)
    requires json.conversation("null") == JsonNull
    ensures var mine := ParseConversation(json, key, value);
      var lib := LibSummary.ParseConversation(json, key, value);
      (lib.Err? ==> mine.None?)
      && (lib.Ok? && lib.value.Some? <==> mine.Some?)
      && (mine.Some? ==> lib == Ok(Some(mine.value.(composerId := At(Split(key, ':'), 1)))))
  {
  }

  /** A message of the server's summary: its role, its `bubbleId` and its text. */
  datatype IndexMessage = IndexMessage(role: Role, bubbleId: Option<string>, text: string)

  datatype IndexSummary = IndexSummary(
    composerId: Option<string>,
    messageCount: nat,
    status: string,
    createdAt: Option<int>,
    lastUpdatedAt: Option<int>,
    preview: string,
    messages: seq<IndexMessage>)

  /** The inline entries, in order, that yield a non-empty text, with their `bubbleId`. */
  function Messages(entries: seq<Message>): (r: seq<IndexMessage>)
    ensures |r| <= |entries|
    ensures forall j :: 0 <= j < |r| ==> r[j].text != ""
  {
    if |entries| == 0 then []
    else
      var last := entries[|entries| - 1];
      Messages(entries[..|entries| - 1])
        + (if InlineText(last) != "" then [IndexMessage(RoleOf(last.msgType), last.bubbleId, InlineText(last))] else [])
  }

  /** The messages without their ids. */
  function Plain(messages: seq<IndexMessage>): (r: seq<MessageInfo>)
    ensures |r| == |messages|
    ensures forall j :: 0 <= j < |r| ==> r[j] == MessageInfo(messages[j].role, messages[j].text)
  {
    seq(|messages|, j requires 0 <= j < |messages| => MessageInfo(messages[j].role, messages[j].text))
  }

  /** Apart from the ids, the server extracts exactly what the shared inline rule extracts. */
  lemma {:induction false} MessagesAreInline(entries: seq<Message>)
    ensures Plain(Messages(entries)) == InlineMessages(entries)
  {
    if |entries| > 0 {
      var init := entries[..|entries| - 1];
      MessagesAreInline(init);
      var last := entries[|entries| - 1];
      var tail := if InlineText(last) != "" then [IndexMessage(RoleOf(last.msgType), last.bubbleId, InlineText(last))] else [];
      assert Messages(entries) == Messages(init) + tail;
      assert Plain(Messages(init) + tail) == Plain(Messages(init)) + Plain(tail);
    }
  }

  function SummaryOf(conv: Conversation): IndexSummary
  {
    var messages := Messages(conv.conversation.GetOr([]));
    IndexSummary(conv.composerId, |messages|, OrString(conv.status, "completed"), conv.createdAt,
                 OrTime(conv.lastUpdatedAt, conv.createdAt), Preview(Plain(messages)), messages)
  }

  /** getConversationSummary (src/index.ts) */
  method GetConversationSummary(conv: Conversation) returns (s: IndexSummary)
    ensures s == SummaryOf(conv)
  {
    var entries := conv.conversation.GetOr([]);
    var messages: seq<IndexMessage> := [];
    var i := 0;
    while i < |entries|
      invariant 0 <= i <= |entries|
      invariant messages == Messages(entries[..i])
    {
      assert entries[..i + 1][..i] == entries[..i];
      var msg := entries[i];
      var text := ExtractInlineText(msg);
      if text != "" {
        messages := messages + [IndexMessage(RoleOf(msg.msgType), msg.bubbleId, text)];
      }
      i := i + 1;
    }
    assert entries[..i] == entries;
    s := IndexSummary(conv.composerId, |messages|, OrString(conv.status, "completed"), conv.createdAt,
                      OrTime(conv.lastUpdatedAt, conv.createdAt), Preview(Plain(messages)), messages);
  }

  /**
   * The count is the number of messages, each has text, the status defaults to 'completed', the
   * last update falls back to the creation time, and the preview is the first message's opening.
   */
  lemma SummaryShape(conv: Conversation)
    ensures var s := SummaryOf(conv);
      s.messageCount == |s.messages|
      && (forall j :: 0 <= j < |s.messages| ==> s.messages[j].text != "")
      && (Truthy(conv.status) ==> s.status == conv.status.value)
      && (!Truthy(conv.status) ==> s.status == "completed")
      && (conv.lastUpdatedAt.Some? && conv.lastUpdatedAt.value != 0 ==> s.lastUpdatedAt == conv.lastUpdatedAt)
      && (!(conv.lastUpdatedAt.Some? && conv.lastUpdatedAt.value != 0) ==> s.lastUpdatedAt == conv.createdAt)
      && (s.messageCount == 0 ==> s.preview == NoPreview)
      && (s.messageCount > 0 ==> s.preview == Take(s.messages[0].text, 100))
  {
  }

  /**
   * The server reads only the inline array: a record whose messages are all inline gets the
   * messages the src/tools summariser gives it, and the keyed map and the headers are ignored.
   */
  lemma InlineOnly(conv: Conversation, fetch: Option<Fetch>)
    ensures SummaryOf(conv) == SummaryOf(conv.(conversationMap := None, fullConversationHeadersOnly := None))
    ensures conv.conversationMap.None? && conv.fullConversationHeadersOnly.None? ==>
      Plain(SummaryOf(conv).messages) == ToolsSummary.SummaryOf(conv, fetch).messages
  {
    MessagesAreInline(conv.conversation.GetOr([]));
    assert MapValues([]) == [];
    assert InlineMessages([]) == [];
    if conv.conversationMap.None? && conv.fullConversationHeadersOnly.None? && fetch.Some? {
      assert ToolsSummary.HeaderMessages([], fetch.value, conv.composerId) == [];
    }
  }
}
