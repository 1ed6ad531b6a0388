/**
 * The summariser of src/tools/helpers.ts: messages from the inline array, then from the keyed map,
 * then (only when a fetch is supplied) from the headers whose messages are stored separately.
 */
module ToolsSummary {
  import opened Wrappers
  import opened Text
  import opened Records
  import opened Summaries

  const NoTextPlaceholder: string := "[Content without text]"
  const ThinkingMarker: string := "[AI thinking content]"

  function CodeBlocksMarker(n: nat): string
  {
    "[" + NatToString(n) + " code block(s)]"
  }

  function ChunksMarker(n: nat): string
  {
    "[" + NatToString(n) + " intermediate chunk(s)]"
  }

  /** `s?.trim()` is truthy */
  predicate NonBlank(s: Option<string>)
  {
    s.Some? && Trim(s.value) != ""
  }

  /**
   * The pieces a fetched assistant message is built from, in order: its text when not blank,
   * its text parts, a code-block count, a thinking marker, an intermediate-chunk count.
   */
  function FetchedPieces(b: Message): seq<string>
  {
    (if NonBlank(b.text) then [b.text.value] else [])
    + TextParts(b.responseParts.GetOr([]))
    + (if LengthOr0(b.codeBlocks) > 0 then [CodeBlocksMarker(LengthOr0(b.codeBlocks))] else [])
    + (if NonBlank(b.thinking) then [ThinkingMarker] else [])
    + (if LengthOr0(b.intermediateChunks) > 0 then [ChunksMarker(LengthOr0(b.intermediateChunks))] else [])
  }

  /** The text of a fetched message before the placeholder rule. */
  function FetchedText(b: Message): string
  {
    if b.msgType == Some(1) then OrString(b.text, "")
    else if b.msgType == Some(2) then Join(FetchedPieces(b), " ")
    else ""
  }

  /** A fetched message is kept when it has text, code blocks or any thinking. */
  predicate Kept(b: Message)
  {
    FetchedText(b) != "" || LengthOr0(b.codeBlocks) > 0 || Truthy(b.thinking)
  }

  function FetchedInfo(b: Message): (info: MessageInfo)
    ensures info.text != ""
  {
    MessageInfo(RoleOf(b.msgType), if FetchedText(b) != "" then FetchedText(b) else NoTextPlaceholder)
  }

  /** The messages the headers resolve to, in header order. */
  function HeaderMessages(headers: seq<Header>, fetch: Fetch, composerId: Option<string>): (r: seq<MessageInfo>)
    ensures |r| <= |headers|
    ensures AllHaveText(r)
  {
    if |headers| == 0 then []
    else
      var found := fetch(composerId, headers[|headers| - 1].bubbleId);
      HeaderMessages(headers[..|headers| - 1], fetch, composerId)
        + (if found.Some? && Kept(found.value) then [FetchedInfo(found.value)] else [])
  }

  /** Shape A, then shape B, then shape C when a fetch is supplied. */
  function Messages(conv: Conversation, fetch: Option<Fetch>): seq<MessageInfo>
  {
    InlineMessages(conv.conversation.GetOr([]))
    + InlineMessages(MapValues(conv.conversationMap.GetOr([])))
    + (if fetch.Some? then HeaderMessages(conv.fullConversationHeadersOnly.GetOr([]), fetch.value, conv.composerId) else [])
  }

  /** The summary getConversationSummary returns. */
  function SummaryOf(conv: Conversation, fetch: Option<Fetch>): Summary
  {
    var messages := Messages(conv, fetch);
    Summary(|messages|, messages, Preview(messages), OrString(conv.status, "none"),
            conv.createdAt, OrTime(conv.lastUpdatedAt, conv.createdAt))
  }

  /** The loop that builds the pieces of a fetched assistant message. */
  method BuildFetchedText(b: Message) returns (text: string)
    ensures text == FetchedText(b)
  {
    text := "";
    if b.msgType == Some(1) {
      text := OrString(b.text, "");
    } else if b.msgType == Some(2) {
      var lead := if NonBlank(b.text) then [b.text.value] else [];
      var parts := CollectTextParts(b.responseParts.GetOr([]));
      var code := if LengthOr0(b.codeBlocks) > 0 then [CodeBlocksMarker(LengthOr0(b.codeBlocks))] else [];
      var thought := if NonBlank(b.thinking) then [ThinkingMarker] else [];
      var chunks := if LengthOr0(b.intermediateChunks) > 0 then [ChunksMarker(LengthOr0(b.intermediateChunks))] else [];
      var pieces := lead + parts + code + thought + chunks;
      text := Join(pieces, " ");
    }
  }

  /** getConversationSummary (src/tools/helpers.ts) */
  method GetConversationSummary(conv: Conversation, fetch: Option<Fetch>) returns (s: Summary)
    ensures s == SummaryOf(conv, fetch)
  {
    var shapeA := CollectInline(conv.conversation.GetOr([]));
    var shapeB := CollectInline(MapValues(conv.conversationMap.GetOr([])));
    var messages := shapeA + shapeB;
    if fetch.Some? {
      var shapeC := FetchHeaders(conv.fullConversationHeadersOnly.GetOr([]), fetch.value, conv.composerId);
      messages := messages + shapeC;
    }
    s := Summary(|messages|, messages, Preview(messages), OrString(conv.status, "none"),
                 conv.createdAt, OrTime(conv.lastUpdatedAt, conv.createdAt));
  }

  /** The loop over the headers: fetch each message and push it when it is kept. */
  method FetchHeaders(headers: seq<Header>, fetch: Fetch, composerId: Option<string>) returns (messages: seq<MessageInfo>)
    ensures messages == HeaderMessages(headers, fetch, composerId)
  {
    messages := [];
    var i := 0;
    while i < |headers|
      invariant 0 <= i <= |headers|
      invariant messages == HeaderMessages(headers[..i], fetch, composerId)
    {
      assert headers[..i + 1][..i] == headers[..i];
      var found := fetch(composerId, headers[i].bubbleId);
      if found.Some? {
        var kept := ResolveHeader(found.value);
        messages := messages + kept;
      }
      i := i + 1;
    }
    assert headers[..i] == headers;
  }

  /** The body for a message that was found: its text, or the placeholder, when it is kept. */
  method ResolveHeader(b: Message) returns (kept: seq<MessageInfo>)
    ensures kept == if Kept(b) then [FetchedInfo(b)] else []
  {
    kept := [];
    var text := BuildFetchedText(b);
    if text != "" || LengthOr0(b.codeBlocks) > 0 || Truthy(b.thinking) {
      if text == "" {
        text := NoTextPlaceholder;
      }
      kept := [MessageInfo(RoleOf(b.msgType), text)];
    }
  }

  // ----- Properties -----

  /** The count is the number of messages, each has text, and the preview is the first one's opening. */
  lemma SummaryShape(conv: Conversation, fetch: Option<Fetch>)
    ensures var s := SummaryOf(conv, fetch);
      s.messageCount == |s.messages| && AllHaveText(s.messages)
      && (s.messageCount == 0 ==> s.preview == NoPreview)
      && (s.messageCount > 0 ==> s.preview == Take(s.messages[0].text, 100) && s.preview != "")
      && |s.preview| <= 100
  {
    var a := InlineMessages(conv.conversation.GetOr([]));
    var b := InlineMessages(MapValues(conv.conversationMap.GetOr([])));
    var c := if fetch.Some? then HeaderMessages(conv.fullConversationHeadersOnly.GetOr([]), fetch.value, conv.composerId) else [];
    assert Messages(conv, fetch) == a + b + c;
    assert forall k :: 0 <= k < |a + b + c| ==> (a + b + c)[k] in a || (a + b + c)[k] in b || (a + b + c)[k] in c;
  }

  /** When every header's message is missing, the headers contribute nothing. */
  lemma {:induction false} UnresolvedHeadersContributeNothing(headers: seq<Header>, fetch: Fetch, composerId: Option<string>)
    requires forall k :: 0 <= k < |headers| ==> fetch(composerId, headers[k].bubbleId).None?
    ensures HeaderMessages(headers, fetch, composerId) == []
  {
    if |headers| > 0 {
      UnresolvedHeadersContributeNothing(headers[..|headers| - 1], fetch, composerId);
    }
  }

  /** A record holding only headers whose messages are all missing summarises to no messages at all. */
  lemma HeadersOnlyAllMissing(conv: Conversation, fetch: Fetch)
    requires conv.conversation.None? && conv.conversationMap.None?
    requires forall k :: 0 <= k < |conv.fullConversationHeadersOnly.GetOr([])| ==>
      fetch(conv.composerId, conv.fullConversationHeadersOnly.GetOr([])[k].bubbleId).None?
    ensures SummaryOf(conv, Some(fetch)).messageCount == 0
    ensures SummaryOf(conv, Some(fetch)).preview == NoPreview
  {
    UnresolvedHeadersContributeNothing(conv.fullConversationHeadersOnly.GetOr([]), fetch, conv.composerId);
  }

  /** Without a fetch the headers are ignored, whatever they hold. */
  lemma HeadersNeedFetch(conv: Conversation, headers: Option<seq<Header>>)
    ensures SummaryOf(conv, None) == SummaryOf(conv.(fullConversationHeadersOnly := headers), None)
  {
  }

  /** The three shapes contribute independently, in the fixed order A, B, C. */
  lemma ShapesInOrder(conv: Conversation, fetch: Option<Fetch>)
    ensures Messages(conv, fetch) ==
      Messages(conv.(conversationMap := None, fullConversationHeadersOnly := None), fetch)
      + Messages(conv.(conversation := None, fullConversationHeadersOnly := None), fetch)
      + Messages(conv.(conversation := None, conversationMap := None), fetch)
  {
  }

  /** A fetched message with only code blocks is kept: an assistant shows their count, a user the placeholder. */
  lemma CodeBlocksOnly(b: Message, n: nat)
    requires 0 < n && b.codeBlocks.Some? && |b.codeBlocks.value| == n
    requires b.text.None? && b.responseParts.None? && b.thinking.None? && b.intermediateChunks.None?
    ensures b.msgType == Some(2) ==> Kept(b) && FetchedInfo(b) == MessageInfo(Assistant, CodeBlocksMarker(n))
    ensures b.msgType == Some(1) ==> Kept(b) && FetchedInfo(b) == MessageInfo(User, NoTextPlaceholder)
  {
    assert FetchedPieces(b) == [CodeBlocksMarker(n)];
  }

  /** A fetched assistant message whose one text part reads "Answer" becomes the assistant message "Answer". */
  lemma FetchedAnswer(b: Message)
    requires b.msgType == Some(2) && b.text.None? && b.responseParts == Some([ResponsePart(Some("text"), Some("Answer"))])
    requires b.codeBlocks.None? && b.thinking.None? && b.intermediateChunks.None?
    ensures Kept(b) && FetchedInfo(b) == MessageInfo(Assistant, "Answer")
  {
    var parts := b.responseParts.value;
    assert parts[..0] == [];
    assert TextParts(parts) == ["Answer"];
    assert FetchedPieces(b) == ["Answer"];
  }

  /** An inline user "Hi" and assistant "Hello back" summarise to two messages previewed by "Hi". */
  lemma TwoMessageExample(conv: Conversation, fetch: Option<Fetch>)
    requires conv.conversation == Some([
      Message(Some(1), Some("Hi"), None, None, None, None, None, None, None, None),
      Message(Some(2), Some("Hello back"), None, None, None, None, None, None, None, None)])
    requires conv.conversationMap.None? && conv.fullConversationHeadersOnly.None?
    ensures SummaryOf(conv, fetch).messageCount == 2
    ensures SummaryOf(conv, fetch).messages == [MessageInfo(User, "Hi"), MessageInfo(Assistant, "Hello back")]
    ensures SummaryOf(conv, fetch).preview == "Hi"
  {
    var entries := conv.conversation.value;
    assert entries[..1][..0] == [];
    assert entries[..1] == [entries[0]];
    assert InlineMessages(entries[..1]) == [MessageInfo(User, "Hi")];
    assert InlineMessages(entries) == [MessageInfo(User, "Hi"), MessageInfo(Assistant, "Hello back")];
  }
}
