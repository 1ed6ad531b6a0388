/**
 * The raw data the core reads: store rows, the abstract JSON decoder, and the records of each
 * family as the decoder yields them (fields as in src/core/types.ts; absent fields are `None`).
 */
module Records {
  import opened Wrappers
  import opened Text

  /** What `JSON.parse` gives for a text: a syntax error, the value `null`, or a value. */
  datatype Parsed<+T> = Malformed | JsonNull | Value(value: T)

  /** `JSON.parse`, viewed at one record type. */
  type Decoder<!T> = string -> Parsed<T>

  /** An array element whose contents the core never reads (only the array's length matters). */
  type Item = string

  /** One entry of a message's `responseParts`. */
  datatype ResponsePart = ResponsePart(partType: Option<string>, rawText: Option<string>)

  datatype TokenCount = TokenCount(inputTokens: int, outputTokens: int)

  /** A message ("bubble") object, inline in a conversation record or stored under its own key. */
  datatype Message = Message(
    msgType: Option<int>,  // `type`: 1 = user, 2 = assistant
    text: Option<string>,
    responseParts: Option<seq<ResponsePart>>,
    codeBlocks: Option<seq<Item>>,
    thinking: Option<string>,
    intermediateChunks: Option<seq<Item>>,
    toolResults: Option<seq<Item>>,
    isAgentic: Option<bool>,
    bubbleId: Option<string>,
    tokenCount: Option<TokenCount>)

  /** An entry of `fullConversationHeadersOnly`. */
  datatype Header = Header(bubbleId: Option<string>)

  /**
   * A conversation record. `conversationMap` holds its entries in the host's key enumeration
   * order. `composerId` is whatever the stored JSON or the caller put there; `conversationId`
   * is set only by the free-text search of src/tools.
   */
  datatype Conversation = Conversation(
    composerId: Option<string>,
    conversationId: Option<string>,
    conversation: Option<seq<Message>>,
    conversationMap: Option<seq<(string, Message)>>,
    fullConversationHeadersOnly: Option<seq<Header>>,
    status: Option<string>,
    createdAt: Option<int>,
    lastUpdatedAt: Option<int>)

  /** A record with no field at all: what `{ ...null }` spreads to. */
  const EmptyConversation := Conversation(None, None, None, None, None, None, None, None)

  /** The record `{ ...null }` spreads to: every field absent. */
  const EmptyMessage := Message(None, None, None, None, None, None, None, None, None, None)

  datatype NewResources = NewResources(files: Option<seq<Item>>, folders: Option<seq<Item>>)

  /** A file-state snapshot (the families called snapshot and checkpoint share one record). */
  datatype Checkpoint = Checkpoint(
    snapshotId: Option<string>,
    files: Option<seq<Item>>,
    nonExistentFiles: Option<seq<Item>>,
    newlyCreatedFolders: Option<seq<Item>>,
    activeInlineDiffs: Option<seq<Item>>,
    inlineDiffNewlyCreatedResources: Option<NewResources>)

  datatype LineRange = LineRange(startLineNumber: Option<int>, endLineNumberExclusive: Option<int>)

  /** One change of a code diff: the replaced line range and the new lines. */
  datatype Change = Change(original: Option<LineRange>, modified: Option<seq<string>>)

  datatype CodeDiff = CodeDiff(newModelDiffWrtV0: Option<seq<Change>>)

  /** The context recorded with a request. */
  datatype RequestContext = RequestContext(
    gitStatusRaw: Option<string>,
    terminalFiles: Option<seq<Item>>,
    cursorRules: Option<seq<Item>>,
    attachedFoldersListDirResults: Option<seq<Item>>,
    summarizedComposers: Option<seq<Item>>,
    todos: Option<seq<Item>>,
    projectLayouts: Option<seq<Item>>)

  /** `JSON.parse` read at each record type of the store. */
  datatype Json = Json(
    conversation: Decoder<Conversation>,
    message: Decoder<Message>,
    checkpoint: Decoder<Checkpoint>,
    diff: Decoder<CodeDiff>,
    context: Decoder<RequestContext>)

  /** A row of the key/value table. */
  datatype Row = Row(key: string, value: Option<string>)

  /** The table, in the row source's order. */
  type Store = seq<Row>

  /** `!row?.value || row.value === 'null'`: the row is missing, its value is null, empty or the text 'null'. */
  predicate Absent(value: Option<string>)
  {
    value.None? || value.value == "" || value.value == "null"
  }

  /** A point lookup `WHERE key = ?`: the first row with that key. */
  function Lookup(store: Store, key: string): (r: Option<Row>)
    ensures r.Some? ==> r.value in store && r.value.key == key
    ensures r.None? ==> forall i :: 0 <= i < |store| ==> store[i].key != key
  {
    if |store| == 0 then None
    else if store[0].key == key then Some(store[0])
    else Lookup(store[1..], key)
  }

  /** The value found by a point lookup, `None` when there is no row. */
  function LookupValue(store: Store, key: string): Option<string>
  {
    match Lookup(store, key)
    case None => None
    case Some(row) => row.value
  }

  /** `WHERE key LIKE 'prefix%'`: the rows whose key starts with `prefix`, in store order. */
  function ScanPrefix(store: Store, prefix: string): (rows: seq<Row>)
    ensures |rows| <= |store|
    ensures forall i :: 0 <= i < |rows| ==> StartsWith(rows[i].key, prefix) && rows[i] in store
    ensures forall i :: 0 <= i < |store| && StartsWith(store[i].key, prefix) ==> store[i] in rows
  {
    if |store| == 0 then []
    else
      var tail := ScanPrefix(store[1..], prefix);
      assert forall i :: 1 <= i < |store| ==> store[i] == store[1..][i - 1];
      if StartsWith(store[0].key, prefix) then [store[0]] + tail else tail
  }

  /**
   * The scan keeps store order and multiplicity: scanning two stretches of the store one after
   * the other gives the matches of the first followed by those of the second.
   */
  lemma {:induction false} ScanPrefixAppend(a: Store, b: Store, prefix: string)
    ensures ScanPrefix(a + b, prefix) == ScanPrefix(a, prefix) + ScanPrefix(b, prefix)
  {
    if |a| == 0 {
      assert a + b == b;
    } else {
      assert (a + b)[1..] == a[1..] + b;
      ScanPrefixAppend(a[1..], b, prefix);
    }
  }

  /** JavaScript `key.slice(n)` */
  function SliceFrom(s: string, n: nat): string
  {
    if n <= |s| then s[n..] else ""
  }

  /** JavaScript string interpolation of an optional string: `undefined` prints as "undefined". */
  function Interpolate(s: Option<string>): string
  {
    s.GetOr("undefined")
  }

  /** JavaScript `arr?.length || 0` */
  function LengthOr0<T>(arr: Option<seq<T>>): nat
  {
    if arr.Some? then |arr.value| else 0
  }

  /** JavaScript truthiness of an optional string: present and non-empty. */
  predicate Truthy(s: Option<string>)
  {
    s.Some? && s.value != ""
  }

  /** JavaScript `a || b` on timestamps: `a` unless it is absent or 0. */
  function OrTime(a: Option<int>, b: Option<int>): (r: Option<int>)
    ensures a.Some? && a.value != 0 ==> r == a
    ensures !(a.Some? && a.value != 0) ==> r == b
  {
    if a.Some? && a.value != 0 then a else b
  }
}
