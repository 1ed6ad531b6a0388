/**
 * What every generation of the conversation summariser shares: the message roles, the summary
 * record, the extraction rule for an inline message entry, the preview rule and the lookup of a
 * message stored under its own key (getBubbleData).
 */
module Summaries {
  import opened Wrappers
  import opened Text
  import opened Records
  import Keys

  datatype Role = User | Assistant

  /** `type === 1 ? 'user' : 'assistant'` */
  function RoleOf(msgType: Option<int>): (r: Role)
    ensures r == User <==> msgType == Some(1)
  {
    if msgType == Some(1) then User else Assistant
  }

  /** One message of a summary. */
  datatype MessageInfo = MessageInfo(role: Role, text: string)

  /** The summary of a conversation record. */
  datatype Summary = Summary(
    messageCount: nat,
    messages: seq<MessageInfo>,
    preview: string,
    status: string,
    createdAt: Option<int>,
    updatedAt: Option<int>)

  /** A way to fetch a message stored under its own key: `(composerId, bubbleId) => BubbleData | null`. */
  type Fetch = (Option<string>, Option<string>) -> Option<Message>

  const NoPreview: string := "No preview available"

  /** `messages[0]?.text?.substring(0, 100) || 'No preview available'` */
  function Preview(messages: seq<MessageInfo>): (p: string)
    ensures |p| <= 100
    ensures |messages| == 0 ==> p == NoPreview
    ensures |messages| > 0 && messages[0].text != "" ==> p == Take(messages[0].text, 100) && p != ""
  {
    if |messages| > 0 then OrString(Some(Take(messages[0].text, 100)), NoPreview) else NoPreview
  }

  /** Every message carries a non-empty text. */
  predicate AllHaveText(messages: seq<MessageInfo>)
  {
    forall k :: 0 <= k < |messages| ==> messages[k].text != ""
  }

  /** Whether a response part contributes its raw text: `part.type === 'text' && part.rawText`. */
  predicate IsTextPart(part: ResponsePart)
  {
    part.partType == Some("text") && Truthy(part.rawText)
  }

  /** The raw texts of the parts that contribute one, in order. */
  function TextParts(parts: seq<ResponsePart>): (r: seq<string>)
    ensures |r| <= |parts|
    ensures forall k :: 0 <= k < |r| ==> r[k] != ""
  {
    if |parts| == 0 then []
    else
      var last := parts[|parts| - 1];
      TextParts(parts[..|parts| - 1]) + (if IsTextPart(last) then [last.rawText.value] else [])
  }

  /** The loop that collects the text parts of a message. */
  method CollectTextParts(parts: seq<ResponsePart>) returns (r: seq<string>)
    ensures r == TextParts(parts)
  {
    r := [];
    var i := 0;
    while i < |parts|
      invariant 0 <= i <= |parts|
      invariant r == TextParts(parts[..i])
    {
      assert parts[..i + 1][..i] == parts[..i];
      if IsTextPart(parts[i]) {
        r := r + [parts[i].rawText.value];
      }
      i := i + 1;
    }
    assert parts[..i] == parts;
  }

  /** Concatenation without separator, `join('')`, is empty exactly when every piece is. */
  lemma {:induction false} ConcatEmpty(pieces: seq<string>)
    ensures Join(pieces, "") == "" <==> forall k :: 0 <= k < |pieces| ==> pieces[k] == ""
  {
    if |pieces| > 1 {
      ConcatEmpty(pieces[1..]);
      assert forall k :: 1 <= k < |pieces| ==> pieces[1..][k - 1] == pieces[k];
    }
  }

  /**
   * The text an inline entry contributes: a user entry its text, an assistant entry its text or
   * else the concatenated raw texts of its text parts; an entry of any other type nothing.
   */
  function InlineText(m: Message): string
  {
    if m.msgType == Some(1) then OrString(m.text, "")
    else if m.msgType == Some(2) then
      (if Truthy(m.text) then m.text.value else Join(TextParts(m.responseParts.GetOr([])), ""))
    else ""
  }

  /** The texts extraction keeps: non-empty for user and assistant entries with text, empty otherwise. */
  lemma InlineTextRule(m: Message)
    ensures m.msgType != Some(1) && m.msgType != Some(2) ==> InlineText(m) == ""
    ensures m.msgType == Some(1) ==> (InlineText(m) != "" <==> Truthy(m.text))
    ensures m.msgType == Some(2) ==>
      (InlineText(m) != "" <==> Truthy(m.text) || |TextParts(m.responseParts.GetOr([]))| > 0)
  {
    if m.msgType == Some(2) && !Truthy(m.text) {
      var pieces := TextParts(m.responseParts.GetOr([]));
      ConcatEmpty(pieces);
      if |pieces| > 0 {
        assert pieces[0] != "";
      }
    }
  }

  /** The loop body shared by every inline extraction. */
  method ExtractInlineText(m: Message) returns (text: string)
    ensures text == InlineText(m)
  {
    text := "";
    if m.msgType == Some(1) {
      text := OrString(m.text, "");
    } else if m.msgType == Some(2) {
      if Truthy(m.text) {
        text := m.text.value;
      } else {
        var parts := CollectTextParts(m.responseParts.GetOr([]));
        text := Join(parts, "");
      }
    }
  }

  /** The inline entries, in order, that yield a non-empty text. */
  function InlineMessages(entries: seq<Message>): (r: seq<MessageInfo>)
    ensures |r| <= |entries|
    ensures AllHaveText(r)
  {
    if |entries| == 0 then []
    else
      var last := entries[|entries| - 1];
      InlineMessages(entries[..|entries| - 1])
        + (if InlineText(last) != "" then [MessageInfo(RoleOf(last.msgType), InlineText(last))] else [])
  }

  /** The loop over one shape's entries: push each entry that yields a non-empty text. */
  method CollectInline(entries: seq<Message>) returns (messages: seq<MessageInfo>)
    ensures messages == InlineMessages(entries)
  {
    messages := [];
    var i := 0;
    while i < |entries|
      invariant 0 <= i <= |entries|
      invariant messages == InlineMessages(entries[..i])
    {
      assert entries[..i + 1][..i] == entries[..i];
      var text := ExtractInlineText(entries[i]);
      if text != "" {
        messages := messages + [MessageInfo(RoleOf(entries[i].msgType), text)];
      }
      i := i + 1;
    }
    assert entries[..i] == entries;
  }

  /** Extraction goes entry by entry: the messages of a concatenation are the concatenated messages. */
  lemma {:induction false} InlineMessagesAppend(xs: seq<Message>, ys: seq<Message>)
    ensures InlineMessages(xs + ys) == InlineMessages(xs) + InlineMessages(ys)
    decreases |ys|
  {
    if |ys| > 0 {
      var init := ys[..|ys| - 1];
      assert (xs + ys)[..|xs + ys| - 1] == xs + init;
      InlineMessagesAppend(xs, init);
    } else {
      assert xs + ys == xs;
    }
  }

  /** Entries of a type other than user and assistant never become messages. */
  lemma InlineDropsOtherTypes(entries: seq<Message>, m: Message)
    requires m.msgType != Some(1) && m.msgType != Some(2)
    ensures InlineMessages(entries + [m]) == InlineMessages(entries)
  {
    assert (entries + [m])[..|entries|] == entries;
  }

  /** `Object.keys(map)` then `map[key]`: the entries' messages in key order. */
  function MapValues(entries: seq<(string, Message)>): (r: seq<Message>)
    ensures |r| == |entries|
    ensures forall k :: 0 <= k < |r| ==> r[k] == entries[k].1
  {
    seq(|entries|, k requires 0 <= k < |entries| => entries[k].1)
  }

  /** The key getBubbleData reads, template `bubbleId:${composerId}:${bubbleId}`. */
  function BubbleKey(composerId: Option<string>, bubbleId: Option<string>): (key: string)
    ensures StartsWith(key, Keys.MessagePrefix)
  {
    Keys.MakeMessageKey(Interpolate(composerId), Interpolate(bubbleId))
  }

  /**
   * getBubbleData: the message stored under the bubble key; nothing when there is no row, its
   * value is empty or 'null', the text is not JSON, or it is the JSON `null`.
   */
  function FetchBubble(store: Store, json: Json, composerId: Option<string>, bubbleId: Option<string>): (r: Option<Message>)
    ensures r.Some? <==>
      (var v := LookupValue(store, BubbleKey(composerId, bubbleId)); !Absent(v) && json.message(v.value).Value?)
    ensures r.Some? ==> json.message(LookupValue(store, BubbleKey(composerId, bubbleId)).value) == Value(r.value)
  {
    var value := LookupValue(store, BubbleKey(composerId, bubbleId));
    if Absent(value) then None
    else
      match json.message(value.value)
      case Value(m) => Some(m)
      case _ => None
  }

  /** The fetch a database-backed summary uses. */
  function DbFetch(store: Store, json: Json): Fetch
  {
    (c, b) => FetchBubble(store, json, c, b)
  }

  /** A message stored as `bubbleId:<c>:<b>` is what the fetch for `(c, b)` yields. */
  lemma FetchFindsStoredBubble(store: Store, json: Json, c: string, b: string, value: string, m: Message)
    requires LookupValue(store, Keys.MakeMessageKey(c, b)) == Some(value)
    requires value != "" && value != "null" && json.message(value) == Value(m)
    ensures DbFetch(store, json)(Some(c), Some(b)) == Some(m)
  {
  }
}
