/**
 * The conversation helpers of src/lib: parseConversation, getBubbleData and the summariser,
 * which resolves headers with plain text extraction (no markers, no placeholder) and defaults
 * the status to 'completed'.
 */
module LibSummary {
  import opened Wrappers
  import opened Text
  import opened Records
  import opened Summaries
  import Keys
  import ToolsSummary

  /**
   * parseConversation: nothing for an empty value; a syntax error for malformed JSON; a type
   * error for the JSON `null` (the id assignment fails); otherwise the record with `composerId`
   * set to the key's second colon-separated piece.
   */
  function ParseConversation(json: Json, key: string, value: Option<string>): (r: Result<Option<Conversation>>)
    ensures !Truthy(value) ==> r == Ok(None)
    ensures Truthy(value) && json.conversation(value.value).Malformed? ==> r == Err(SyntaxError)
    ensures Truthy(value) && json.conversation(value.value).JsonNull? ==> r == Err(TypeError)
    ensures Truthy(value) && json.conversation(value.value).Value? ==>
      r == Ok(Some(json.conversation(value.value).value.(composerId := At(Split(key, ':'), 1))))
  {
    if !Truthy(value) then Ok(None)
    else
      match json.conversation(value.value)
      case Malformed => Err(SyntaxError)
      case JsonNull => Err(TypeError)
      case Value(c) => Ok(Some(c.(composerId := At(Split(key, ':'), 1))))
  }

  /** The id read back from a conversation key is the id it was built from, cut at its first colon. */
  lemma ParsedIdFromKey(id: string)
    ensures At(Split(Keys.MakeConversationKey(id), ':'), 1) == Some(Split(id, ':')[0])
    ensures At(Split(Keys.MakeConversationKey(id), ':'), 1) == Some(id) <==> ':' !in id
  {
    KeyPieces(id);
    SplitFirst(id, ':');
  }

  lemma KeyPieces(id: string)
    ensures Split(Keys.MakeConversationKey(id), ':') == ["composerData"] + Split(id, ':')
  {
    assert Keys.ConversationPrefix == "composerData" + [':'];
    assert ':' !in "composerData";
    SplitConcat("composerData", ':', id);
  }

  /** The text a fetched message yields: the inline rule, with parts read only when the array is present. */
  function HeaderText(b: Message): string
  {
    if b.msgType == Some(1) then OrString(b.text, "")
    else if b.msgType == Some(2) then
      (if Truthy(b.text) then b.text.value
       else if b.responseParts.Some? then Join(TextParts(b.responseParts.value), "")
       else "")
    else ""
  }

  /** Headers are read exactly as inline entries are. */
  lemma HeaderTextIsInline(b: Message)
    ensures HeaderText(b) == InlineText(b)
  {
  }

  /** The messages the headers resolve to: fetched messages with non-empty text, in header order. */
  function HeaderMessages(headers: seq<Header>, fetch: Fetch, composerId: Option<string>): (r: seq<MessageInfo>)
    ensures |r| <= |headers|
    ensures AllHaveText(r)
  {
    if |headers| == 0 then []
    else
      var found := fetch(composerId, headers[|headers| - 1].bubbleId);
      HeaderMessages(headers[..|headers| - 1], fetch, composerId)
        + (if found.Some? && HeaderText(found.value) != "" then [MessageInfo(RoleOf(found.value.msgType), HeaderText(found.value))] else [])
  }

  /** When the fetch is the stored value, the headers contribute what inline entries holding those messages would. */
  lemma {:induction false} HeadersAsInline(headers: seq<Header>, fetch: Fetch, composerId: Option<string>, fetched: seq<Message>)
    requires |fetched| == |headers|
    requires forall k :: 0 <= k < |headers| ==> fetch(composerId, headers[k].bubbleId) == Some(fetched[k])
    ensures HeaderMessages(headers, fetch, composerId) == InlineMessages(fetched)
  {
    if |headers| > 0 {
      var n := |headers| - 1;
      HeadersAsInline(headers[..n], fetch, composerId, fetched[..n]);
      assert fetched[..n] == fetched[..|fetched| - 1];
      HeaderTextIsInline(fetched[n]);
    }
  }

  function Messages(conv: Conversation, fetch: Option<Fetch>): seq<MessageInfo>
  {
    InlineMessages(conv.conversation.GetOr([]))
    + InlineMessages(MapValues(conv.conversationMap.GetOr([])))
    + (if fetch.Some? then HeaderMessages(conv.fullConversationHeadersOnly.GetOr([]), fetch.value, conv.composerId) else [])
  }

  function SummaryOf(conv: Conversation, fetch: Option<Fetch>): Summary
  {
    var messages := Messages(conv, fetch);
    Summary(|messages|, messages, Preview(messages), OrString(conv.status, "completed"),
            conv.createdAt, OrTime(conv.lastUpdatedAt, conv.createdAt))
  }

  /** getConversationSummary (src/lib/getConversationSummary.ts) */
  method GetConversationSummary(conv: Conversation, fetch: Option<Fetch>) returns (s: Summary)
    ensures s == SummaryOf(conv, fetch)
  {
    var shapeA := CollectInline(conv.conversation.GetOr([]));
    var shapeB := CollectInline(MapValues(conv.conversationMap.GetOr([])));
    var messages := shapeA + shapeB;
    if fetch.Some? {
      var shapeC := FetchHeaders(conv.fullConversationHeadersOnly.GetOr([]), fetch.value, conv.composerId);
      messages := messages + shapeC;
    }
    s := Summary(|messages|, messages, Preview(messages), OrString(conv.status, "completed"),
                 conv.createdAt, OrTime(conv.lastUpdatedAt, conv.createdAt));
  }

  /** The loop over the headers: fetch each message and push it when it is kept. */
  method FetchHeaders(headers: seq<Header>, fetch: Fetch, composerId: Option<string>) returns (messages: seq<MessageInfo>)
    ensures messages == HeaderMessages(headers, fetch, composerId)
  {
    messages := [];
    var i := 0;
    while i < |headers|
      invariant 0 <= i <= |headers|
      invariant messages == HeaderMessages(headers[..i], fetch, composerId)
    {
      assert headers[..i + 1][..i] == headers[..i];
      var found := fetch(composerId, headers[i].bubbleId);
      if found.Some? {
        var b := found.value;
        var text := "";
        if b.msgType == Some(1) {
          text := OrString(b.text, "");
        } else if b.msgType == Some(2) {
          if Truthy(b.text) {
            text := b.text.value;
          } else if b.responseParts.Some? {
            var parts := CollectTextParts(b.responseParts.value);
            text := Join(parts, "");
          }
        }
        if text != "" {
          messages := messages + [MessageInfo(RoleOf(b.msgType), text)];
        }
      }
      i := i + 1;
    }
    assert headers[..i] == headers;
  }

  // ----- Properties -----

  /** The count is the number of messages, each has text, and the preview is the first one's opening. */
  lemma SummaryShape(conv: Conversation, fetch: Option<Fetch>)
    ensures var s := SummaryOf(conv, fetch);
      s.messageCount == |s.messages| && AllHaveText(s.messages)
      && (s.messageCount == 0 ==> s.preview == NoPreview)
      && (s.messageCount > 0 ==> s.preview == Take(s.messages[0].text, 100) && s.preview != "")
  {
    var a := InlineMessages(conv.conversation.GetOr([]));
    var b := InlineMessages(MapValues(conv.conversationMap.GetOr([])));
    var c := if fetch.Some? then HeaderMessages(conv.fullConversationHeadersOnly.GetOr([]), fetch.value, conv.composerId) else [];
    assert Messages(conv, fetch) == a + b + c;
    assert forall k :: 0 <= k < |a + b + c| ==> (a + b + c)[k] in a || (a + b + c)[k] in b || (a + b + c)[k] in c;
  }

  /**
   * The two generations agree on the inline shapes; they differ in the default status ('completed'
   * against 'none') and in how headers are read.
   */
  lemma AgreesWithToolsOnInline(conv: Conversation, fetch: Option<Fetch>)
    requires conv.fullConversationHeadersOnly.None?
    ensures SummaryOf(conv, fetch).messages == ToolsSummary.SummaryOf(conv, fetch).messages
    ensures SummaryOf(conv, fetch).status == (if Truthy(conv.status) then conv.status.value else "completed")
    ensures ToolsSummary.SummaryOf(conv, fetch).status == (if Truthy(conv.status) then conv.status.value else "none")
  {
  }

  /**
   * A fetched assistant message whose text is only blanks is kept verbatim here, while the
   * src/tools summariser drops it.
   */
  lemma BlankAnswerDiffers(b: Message)
    requires b.msgType == Some(2) && b.text == Some("  ")
    requires b.responseParts.None? && b.codeBlocks.None? && b.thinking.None? && b.intermediateChunks.None?
    ensures HeaderText(b) == "  "
    ensures !ToolsSummary.Kept(b)
  {
    assert TrimStart("  ") == TrimStart(" ") == "";
    assert ToolsSummary.FetchedPieces(b) == [];
  }
}
