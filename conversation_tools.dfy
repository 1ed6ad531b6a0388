/**
 * The whole-conversation tools: getConversation (src/tools/get-conversation.ts) and
 * exportConversation (src/tools/export-conversation.ts). Both read one conversation record under
 * its key and set its `composerId` to the requested id; the export builds the file's path and
 * content, and the write itself is not modelled.
 */
module ConversationTools {
  import opened Wrappers
  import opened Text
  import opened Records
  import opened Keys
  import opened Summaries
  import ToolsSummary

  /** `Conversation <id> not found` */
  function NotFound(composerId: string): (e: Error)
    ensures e.Thrown? && e.message == "Conversation " + composerId + " not found"
  {
    Thrown("Conversation " + composerId + " not found")
  }

  /**
   * The record under `composerData:<id>`, with `composerId` set to the requested id. A missing,
   * empty or 'null' value throws the not-found error; malformed JSON throws `SyntaxError`, and
   * the JSON `null` throws `TypeError` when its `composerId` is assigned.
   */
  function Load(store: Store, json: Json, composerId: string): (r: Result<Conversation>)
    ensures var v := LookupValue(store, MakeConversationKey(composerId));
      (Absent(v) <==> r == Err(NotFound(composerId)))
      && (!Absent(v) ==> match json.conversation(v.value)
                         case Malformed => r == Err(SyntaxError)
                         case JsonNull => r == Err(TypeError)
                         case Value(c) => r.Ok? && r.value.composerId == Some(composerId)
                                          && r.value.(composerId := c.composerId) == c)
  {
    var v := LookupValue(store, MakeConversationKey(composerId));
    if Absent(v) then Err(NotFound(composerId))
    else
      match json.conversation(v.value)
      case Malformed => Err(SyntaxError)
      case JsonNull => Err(TypeError)
      case Value(c) => Ok(c.(composerId := Some(composerId)))
  }

  /** The summary of a loaded record, with messages stored under their own keys fetched from the store. */
  function SummaryOf(store: Store, json: Json, record: Conversation): Summary
  {
    ToolsSummary.SummaryOf(record, Some(DbFetch(store, json)))
  }

  // ----- getConversation -----

  datatype ConversationView = FullRecord(record: Conversation) | SummaryView(summary: Summary)

  /** getConversation: the raw record for the format 'full', the summary for any other format. */
  function GetConversation(store: Store, json: Json, composerId: string, format: string): (r: Result<ConversationView>)
    ensures Load(store, json, composerId).Err? ==> r == Err(Load(store, json, composerId).error)
    ensures r.Ok? && format == "full" ==> r.value.FullRecord? && r.value.record.composerId == Some(composerId)
    ensures r.Ok? && format != "full" ==> r.value.SummaryView?
  {
    match Load(store, json, composerId)
    case Err(e) => Err(e)
    case Ok(record) => Ok(if format == "full" then FullRecord(record) else SummaryView(SummaryOf(store, json, record)))
  }

  /**
   * The two formats describe one record: the summary format answers the summary of what the full
   * format answers, and both fail alike.
   */
  lemma FormatsAgree(store: Store, json: Json, composerId: string, format: string)
    requires format != "full"
    ensures var full := GetConversation(store, json, composerId, "full");
      var brief := GetConversation(store, json, composerId, format);
      (full.Err? <==> brief.Err?)
      && (full.Err? ==> brief == full)
      && (full.Ok? ==> brief == Ok(SummaryView(SummaryOf(store, json, full.value.record))))
  {
  }

  // ----- exportConversation -----

  /** What the export would write, and where. */
  datatype ExportFile = ExportFile(path: string, content: string)

  const ExportDirectory: string := "/tmp"
  const ExportNamePrefix: string := "cursor-conversation-"

  /** `join('/tmp', 'cursor-conversation-<id>.<ext>')` */
  function ExportPath(composerId: string, extension: string): (path: string)
    ensures StartsWith(path, ExportDirectory + "/" + ExportNamePrefix)
  {
    ExportDirectory + "/" + ExportNamePrefix + composerId + "." + extension
  }

  /** The file name gives back the conversation id and the extension. */
  lemma ExportPathRoundTrip(composerId: string, extension: string)
    ensures var path := ExportPath(composerId, extension);
      var head := |ExportDirectory + "/" + ExportNamePrefix|;
      head + |composerId| < |path|
      && path[head..head + |composerId|] == composerId
      && path[head + |composerId|] == '.'
      && path[head + |composerId| + 1..] == extension
  {
    var path := ExportPath(composerId, extension);
    var head := ExportDirectory + "/" + ExportNamePrefix;
    assert path == head + composerId + "." + extension;
    assert path[|head|..|head| + |composerId|] == composerId;
    assert path[|head| + |composerId| + 1..] == extension;
  }

  /** `${msg.type}` */
  function RoleName(role: Role): (name: string)
    ensures name == "user" <==> role == User
    ensures name == "assistant" <==> role == Assistant
  {
    match role
    case User => "user"
    case Assistant => "assistant"
  }

  /** The `${x}` rendering of an optional number: its decimal digits, or 'undefined'. */
  function Show(n: Option<int>): string
  {
    match n
    case None => "undefined"
    case Some(k) => IntToString(k)
  }

  /** The block of the message at 0-based `index`: its 1-based number, its role and its text. */
  function MessageBlock(index: nat, m: MessageInfo): string
  {
    BlockHeading(index, m.role) + m.text + "\n\n"
  }

  /** The heading line of a block and the blank line after it. */
  function BlockHeading(index: nat, role: Role): string
  {
    "## Message " + NatToString(index + 1) + " (" + RoleName(role) + ")\n\n"
  }

  /** A block opens with its heading and ends with the message's text and a blank line. */
  lemma BlockLayout(index: nat, m: MessageInfo)
    ensures StartsWith(MessageBlock(index, m), BlockHeading(index, m.role))
    ensures MessageBlock(index, m)[|BlockHeading(index, m.role)|..] == m.text + "\n\n"
  {
    var block := MessageBlock(index, m);
    var h := BlockHeading(index, m.role);
    assert block == h + (m.text + "\n\n");
    assert block[..|h|] == h;
  }

  /**
   * `messages.map((msg, i) => block(i, msg)).join('')` for the messages from 0-based position
   * `start` on: the rendering of each message by its position, concatenated in order.
   */
  function BlocksFrom(block: (nat, MessageInfo) -> string, messages: seq<MessageInfo>, start: nat): string
    decreases |messages|
  {
    if |messages| == 0 then "" else block(start, messages[0]) + BlocksFrom(block, messages[1..], start + 1)
  }

  /** `summary.messages.map(...).join('')` */
  function MessageBlocks(messages: seq<MessageInfo>): string
  {
    BlocksFrom(MessageBlock, messages, 0)
  }

  /**
   * The blocks are one per message, in message order: the block of message `k` sits between the
   * blocks of the messages before it and those after it, numbered `k + 1` and showing message
   * `k`'s role and text.
   */
  lemma BlockOrder(messages: seq<MessageInfo>, k: nat)
    requires k < |messages|
    ensures MessageBlocks(messages)
      == BlocksFrom(MessageBlock, messages[..k], 0) + MessageBlock(k, messages[k]) + BlocksFrom(MessageBlock, messages[k + 1..], k + 1)
  {
    RenderingOrder(MessageBlock, messages, 0, k);
  }

  lemma RenderingOrder(block: (nat, MessageInfo) -> string, messages: seq<MessageInfo>, start: nat, k: nat)
    requires k < |messages|
    ensures BlocksFrom(block, messages, start)
      == BlocksFrom(block, messages[..k], start) + block(start + k, messages[k]) + BlocksFrom(block, messages[k + 1..], start + k + 1)
  {
    var before := messages[..k];
    var after := messages[k + 1..];
    assert messages == before + ([messages[k]] + after);
    BlocksAppend(block, before, [messages[k]] + after, start);
    BlocksAppend(block, [messages[k]], after, start + k);
    assert [messages[k]][1..] == [];
  }

  /** The blocks of two runs of messages, the second numbered on from the first. */
  lemma {:induction false} BlocksAppend(block: (nat, MessageInfo) -> string, a: seq<MessageInfo>, b: seq<MessageInfo>, start: nat)
    ensures BlocksFrom(block, a + b, start) == BlocksFrom(block, a, start) + BlocksFrom(block, b, start + |a|)
    decreases |a|
  {
    if |a| == 0 {
      assert a + b == b;
    } else {
      BlocksAppend(block, a[1..], b, start + 1);
      assert (a + b)[0] == a[0];
      assert (a + b)[1..] == a[1..] + b;
    }
  }

  /** The first line of the Markdown document and the label of the second. */
  function Title(composerId: string): string
  {
    "# Conversation: " + composerId + "\n\n**Created:** "
  }

  /** The rest of the header: the creation time, then the Updated, Status and Messages lines. */
  function HeaderLines(record: Conversation, summary: Summary): string
  {
    Show(record.createdAt) + "\n"
    + "**Updated:** " + Show(summary.updatedAt) + "\n"
    + "**Status:** " + summary.status + "\n"
    + "**Messages:** " + NatToString(summary.messageCount) + "\n\n"
  }

  /** The Markdown document: the title, the header lines and the message blocks. */
  function Markdown(composerId: string, record: Conversation, summary: Summary): (doc: string)
    ensures StartsWith(doc, Title(composerId))
  {
    PrefixOfConcat(Title(composerId), HeaderLines(record, summary) + MessageBlocks(summary.messages));
    Title(composerId) + (HeaderLines(record, summary) + MessageBlocks(summary.messages))
  }

  lemma PrefixOfConcat(p: string, q: string)
    ensures StartsWith(p + q, p)
  {
    assert (p + q)[..|p|] == p;
  }

  /**
   * exportConversation: the path of the written file and its content. The format 'json' writes
   * `stringify` of the record to a `.json` file; any other format writes the Markdown document to
   * a `.md` file. It fails as getConversation does.
   */
  function Export(store: Store, json: Json, stringify: Conversation -> string, composerId: string, format: string): (r: Result<ExportFile>)
    ensures Load(store, json, composerId).Err? ==> r == Err(Load(store, json, composerId).error)
    ensures r.Ok? ==> r.value.path == ExportPath(composerId, if format == "json" then "json" else "md")
  {
    match Load(store, json, composerId)
    case Err(e) => Err(e)
    case Ok(record) =>
      if format == "json" then Ok(ExportFile(ExportPath(composerId, "json"), stringify(record)))
      else Ok(ExportFile(ExportPath(composerId, "md"), Markdown(composerId, record, SummaryOf(store, json, record))))
  }

  /**
   * The export writes what getConversation answers: the JSON file holds the full record, and the
   * Markdown file shows the summary, whose message count is the number of blocks.
   */
  lemma ExportAgreesWithGet(store: Store, json: Json, stringify: Conversation -> string, composerId: string, format: string)
    ensures var e := Export(store, json, stringify, composerId, format);
      var full := GetConversation(store, json, composerId, "full");
      var brief := GetConversation(store, json, composerId, "summary");
      (e.Err? <==> full.Err?)
      && (e.Err? ==> e.error == full.error)
      && (e.Ok? && format == "json" ==> e.value.content == stringify(full.value.record))
      && (e.Ok? && format != "json" ==>
            e.value.content == Title(composerId) + HeaderLines(full.value.record, brief.value.summary) + MessageBlocks(brief.value.summary.messages))
  {
  }
}
