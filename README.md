# Cursor conversation readers, modelled in Dafny

This project models the read-only engine of the `mcp-cursor-conversations`
repository. Cursor keeps its chat history in a key/value table
(`cursorDiskKV`: a text `key` and a nullable text `value`). The repository
reads that table in four places:

- the key codec (`src/core/database/keys.ts`) and the Lexical rich-text
  flattener (`src/core/rich-text.ts`);
- the MCP tools under `src/tools` (conversation summaries, listing, plain and
  advanced search, get/export, and the message, bubble, snapshot, checkpoint,
  diff, code-diff, context and request-context families);
- the older, database-injected library under `src/lib`, and the monolithic
  server `src/index.ts` with its own parser, summariser and handlers;
- the command line front end `src/cli.ts` (`parseArgs` and the dispatch in
  `run`), and the Python export script `scripts/extract_conversations.py`.

The table is a sequence of rows (`Records.Row`). A `LIKE 'prefix%'` query is
a prefix scan over that sequence, and a point lookup takes the first row with
the key. JSON decoding is a parameter of type `string -> Parsed<T>` that says
whether the text is malformed, the literal `null`, or a record. Records are
datatypes whose absent fields are `None`. Errors that the source throws are
`Result` failures carrying the source's message text.

Each row loop of the source is a `method` with a `while` loop. It is proved
equal to a specification function over the scanned rows (`Scans.Gather`,
`Scans.Collect`, `Scans.Until`, `Scans.Count`). The loop bodies are small
methods proved equal to a step function on one row. What the source promises
is then proved about the specification functions: counts and lengths, which
rows are skipped, defaults, truncation, round trips between keys built and
keys parsed, agreement between the tools, lib and server versions where the
code agrees, and the places where it does not agree.

Sorting is an insertion sort over sequences (`Sorting.Sort`). It is proved
to return a permutation of its input, sorted whenever the comparator is
consistent. Every comparator the source uses is proved consistent
(`QueryRules.ComparatorConsistent`, `IndexHandlers.RecentFirstConsistent`,
`IndexHandlers.AdvancedOrderConsistent`, `ExtractScript.ByCountConsistent`).

## Model

| member | source | states |
|---|---|---|
| Keys.StripPrefix | src/core/database/keys.ts:41-42 | there is a rest exactly when the key starts with the prefix, and then the key is the prefix followed by that rest |
| Keys.ParseConversationKey | src/core/database/keys.ts:40-43 | a conversation id is read exactly from a key with the conversation prefix, and the key is that prefix followed by the id |
| Keys.ParseMessageKey | src/core/database/keys.ts:45-50 | a key without the message prefix gives nothing, and neither id read contains a colon |
| Keys.ParseAtFirstColon | src/core/database/keys.ts:52-74 | a pair is read exactly when the key has the prefix and a colon after it; the first id holds no colon and the two ids rebuild the key |
| Keys.ParseSnapshotKey | src/core/database/keys.ts:52-58 | a snapshot key with a colon after the prefix parses, and the ids rebuild it through makeSnapshotKey |
| Keys.ParseDiffKey | src/core/database/keys.ts:60-66 | a diff key with a colon after the prefix parses, and the ids rebuild it through makeDiffKey |
| Keys.ParseContextKey | src/core/database/keys.ts:68-74 | a context key with a colon after the prefix parses, and the ids rebuild it through makeContextKey |
| Keys.MakeConversationKey | src/core/database/keys.ts:25-26 | the key starts with `composerData:` and what follows is the conversation id |
| Keys.MakeSubKey | src/core/database/keys.ts:28-38 | a two-id key starts with its family prefix and what follows is the two ids joined with ':' |
| Keys.MakeMessageKey | src/core/database/keys.ts:28-29 | the key starts with `bubbleId:` followed by the two ids joined with ':' |
| Keys.MakeSnapshotKey | src/core/database/keys.ts:31-32 | the key starts with `checkpointId:` followed by the two ids joined with ':' |
| Keys.MakeDiffKey | src/core/database/keys.ts:34-35 | the key starts with `codeBlockDiff:` followed by the two ids joined with ':' |
| Keys.MakeContextKey | src/core/database/keys.ts:37-38 | the key starts with `messageRequestContext:` followed by the two ids joined with ':' |
| Keys.ConversationKeyRoundTrip | src/core/database/keys.ts:25-43 | parsing a built conversation key gives back the id, colons included, and a key parses to an id exactly when it is the key built from that id |
| Keys.SplitPair | src/core/database/keys.ts:47-48 | `a:b` splits at ':' into exactly two pieces iff neither id contains ':', and then the pieces are the two ids |
| Keys.MessageKeyRoundTrip | src/core/database/keys.ts:45-50 | a built message key parses exactly when neither id contains ':', and then gives back both ids |
| Keys.MessageKeyParsedRebuilds | src/core/database/keys.ts:45-50 | every key the message parser accepts is the key built from the two ids it returns |
| Keys.AtFirstColonRoundTrip | src/core/database/keys.ts:52-74 | splitting at the first colon gives back both ids of a built key whenever the conversation id has no ':' (the local id may hold any), and every accepted key is rebuilt from the returned ids |
| Keys.SnapshotKeyRoundTrip | src/core/database/keys.ts:52-58 | the snapshot parser inverts the snapshot builder when the conversation id has no ':', and every key it accepts is rebuilt from its result |
| Keys.DiffKeyRoundTrip | src/core/database/keys.ts:60-66 | the same for the diff parser and builder |
| Keys.ContextKeyRoundTrip | src/core/database/keys.ts:68-74 | the same for the context parser and builder |
| Keys.AtFirstColonNoColon | src/core/database/keys.ts:52-74 | with its prefix present, each first-colon parser returns null exactly when no ':' follows the prefix |
| Keys.PrefixesExclusive | src/core/database/keys.ts:8-14 | a key starts with at most one of the five family prefixes |
| Keys.AtMostOneParserAccepts | src/core/database/keys.ts:40-74 | each parser accepts only keys with its own prefix, so at most one of the five parsers accepts any key |
| Keys.FamilyPrefixes | src/core/database/keys.ts:8-14 | each prefix is a colon-free family name followed by a single ':' |
| Keys.SubKeySplit | src/core/database/keys.ts:28-38 | `split(':')` of a two-id key whose conversation id has no ':' is the family name, the conversation id, then the pieces of the local id |
| Keys.LocalIdFromKey | src/tools/snapshots.ts:28-29 | on a built key, `split(':')[2]` is the local id up to its first ':' (the whole id exactly when it has none), while `split(':').slice(2).join(':')` is always the whole local id |
| RichText.ParseRichText | src/core/rich-text.ts:37-44 | input that decodes to a document with a root gives the trimmed flattening of the root; any other input (malformed, JSON null, no root) comes back unchanged, so the function never fails |
| RichText.ParseMessageRichText | src/core/rich-text.ts:49-55 | a message without richText, or with an empty one, is returned untouched; otherwise the same fields come back with `richTextParsed` set to the parsed text |
| RichText.TextNodeOutput | src/core/rich-text.ts:17-19 | a 'text' node yields its text or '', whatever its children |
| RichText.MentionNodeOutput | src/core/rich-text.ts:21-23 | a 'mention' node yields its mentionName, else its text, else '' |
| RichText.ExtractAllAppend | src/core/rich-text.ts:26 | flattening a node sequence concatenates the nodes' outputs in order |
| RichText.ContainerNodeOutput | src/core/rich-text.ts:25-34 | any other node yields '' without children, its children's concatenated output with children, plus one '\n' when it is a 'paragraph' |
| RichText.OccurrencesAppend | src/core/rich-text.ts:26-29 | newline counts add up over concatenation |
| RichText.NewlinePerParagraph | src/core/rich-text.ts:16-35 | when no text or mention contributes a newline, the flattened text holds exactly one '\n' per visited paragraph |
| RichText.NewlinesPerParagraphAll | src/core/rich-text.ts:26 | the same over a sequence of children |
| RichText.HelloExample | src/core/rich-text.ts:37-40 | root → paragraph → text "Hello" parses to "Hello": the paragraph's newline is trimmed away |
| Summaries.RoleOf | src/tools/helpers.ts:27 | the role is user exactly when the type is 1, assistant for every other type |
| Summaries.Preview | src/tools/helpers.ts:140 | at most 100 characters; 'No preview available' when there is no message; the first message's opening 100 characters when that text is non-empty |
| Summaries.TextParts | src/tools/helpers.ts:37-42 | at most one raw text per part, each non-empty (only 'text' parts with a truthy rawText contribute) |
| Summaries.CollectTextParts | src/tools/helpers.ts:37-42 | the part loop pushes exactly the raw texts `TextParts` describes, in order |
| Summaries.ConcatEmpty | src/tools/helpers.ts:43 | `join('')` is empty exactly when every piece is |
| Summaries.InlineTextRule | src/tools/helpers.ts:31-49 | an entry of a type other than 1 and 2 yields no text; a user entry yields text iff its text is truthy; an assistant entry iff its text is truthy or some text part contributes |
| Summaries.ExtractInlineText | src/tools/helpers.ts:26-45 | the per-entry branch computes the inline text rule: user text or '', assistant text or else the ''-joined text parts |
| Summaries.InlineMessages | src/tools/helpers.ts:25-50 | at most one message per entry, each with non-empty text |
| Summaries.CollectInline | src/tools/helpers.ts:25-50 | the entry loop pushes exactly the entries with non-empty text, in entry order, with their roles |
| Summaries.InlineMessagesAppend | src/tools/helpers.ts:25-50 | extraction works entry by entry: the messages of a concatenation are the concatenated messages |
| Summaries.InlineDropsOtherTypes | src/tools/helpers.ts:31-49 | an entry whose type is neither 1 nor 2 never becomes a message |
| Summaries.MapValues | src/tools/helpers.ts:55-56 | the map's messages in key order, one per key |
| Summaries.BubbleKey | src/lib/getBubbleData.ts:2 | the key getBubbleData reads is a message key, `bubbleId:` + composerId + ':' + bubbleId |
| Summaries.FetchBubble | src/lib/getBubbleData.ts:1-13 | a message exactly when the row exists, its value is non-empty and not 'null', and it decodes to an object; the message is the decoded value unchanged |
| Summaries.FetchFindsStoredBubble | src/tools/helpers.ts:4-15 | a message stored under `makeMessageKey(c, b)` is what the database fetch returns for `(c, b)` |
| ToolsSummary.FetchedInfo | src/tools/helpers.ts:127-131 | a kept fetched message always carries text: its own, or '[Content without text]' |
| ToolsSummary.HeaderMessages | src/tools/helpers.ts:86-134 | at most one message per header, each with non-empty text |
| ToolsSummary.BuildFetchedText | src/tools/helpers.ts:95-125 | a fetched user message's text is its text or ''; an assistant's is the ' '-join of: non-blank text, text parts, code-block count, thinking marker, chunk count, in that order |
| ToolsSummary.GetConversationSummary | src/tools/helpers.ts:17-145 | the summary is inline messages, then map values, then (only with a fetch) header messages; count, preview, status defaulting to 'none', and `lastUpdatedAt \|\| createdAt` |
| ToolsSummary.FetchHeaders | src/tools/helpers.ts:85-135 | the header loop pushes, in header order, the kept messages the fetch finds for the record's composerId |
| ToolsSummary.ResolveHeader | src/tools/helpers.ts:89-132 | a found message becomes one message exactly when it is kept (text, code blocks or truthy thinking), with the placeholder when its text is empty |
| ToolsSummary.SummaryShape | src/tools/helpers.ts:137-144 | `messageCount` is the number of messages, every message has text, and the preview is 'No preview available' without messages, else the first message's opening |
| ToolsSummary.UnresolvedHeadersContributeNothing | src/tools/helpers.ts:89 | headers whose fetch returns null contribute no message |
| ToolsSummary.HeadersOnlyAllMissing | src/tools/helpers.ts:85-89 | a record holding only headers, none of which resolves, summarises to zero messages and the no-preview text |
| ToolsSummary.HeadersNeedFetch | src/tools/helpers.ts:85 | without a fetch function the headers are ignored whatever they hold |
| ToolsSummary.ShapesInOrder | src/tools/helpers.ts:24-85 | the three shapes contribute independently and in the fixed order inline array, map, headers |
| ToolsSummary.CodeBlocksOnly | src/tools/helpers.ts:112-131 | a fetched message with only code blocks is kept: an assistant's text is the code-block count marker, a user's the placeholder |
| ToolsSummary.FetchedAnswer | src/tools/helpers.ts:97-110 | an assistant message whose one text part reads "Answer" becomes the assistant message "Answer" |
| ToolsSummary.TwoMessageExample | src/tools/helpers.ts:24-51 | inline user "Hi" and assistant "Hello back" give exactly those two messages, previewed by "Hi" |
| LibSummary.ParseConversation | src/lib/parseConversation.ts:1-6 | an empty or absent value gives no record; malformed JSON raises a syntax error and the JSON `null` a type error; otherwise the decoded record with `composerId` set to the key's second ':'-piece |
| LibSummary.ParsedIdFromKey | src/lib/parseConversation.ts:4 | on `composerData:<id>` the id read back is `id` up to its first ':', and equals `id` exactly when `id` has no ':' |
| LibSummary.KeyPieces | src/lib/parseConversation.ts:4 | `split(':')` of a conversation key is 'composerData' followed by the pieces of the id |
| LibSummary.HeaderTextIsInline | src/lib/getConversationSummary.ts:85-101 | a fetched message's text follows exactly the inline entry rule (text, else the ''-joined text parts) |
| LibSummary.HeaderMessages | src/lib/getConversationSummary.ts:74-107 | at most one message per header, each with non-empty text |
| LibSummary.HeadersAsInline | src/lib/getConversationSummary.ts:73-108 | when the fetch finds a message for every header, the headers yield what inline entries holding those messages would |
| LibSummary.GetConversationSummary | src/lib/getConversationSummary.ts:1-118 | inline messages, then map values, then (only with a fetch) header messages with no markers or placeholder; count, preview, status defaulting to 'completed', `lastUpdatedAt \|\| createdAt` |
| LibSummary.FetchHeaders | src/lib/getConversationSummary.ts:73-108 | the header loop pushes, in header order, every fetched message whose text is non-empty |
| LibSummary.SummaryShape | src/lib/getConversationSummary.ts:110-117 | `messageCount` is the number of messages, each has text, and the preview is 'No preview available' exactly when there is none, else the first message's opening |
| LibSummary.AgreesWithToolsOnInline | src/lib/getConversationSummary.ts:114 | without headers this summariser and the src/tools one give the same messages; their statuses default to 'completed' and 'none' |
| LibSummary.BlankAnswerDiffers | src/lib/getConversationSummary.ts:89-90 | an assistant message whose text is only blanks is kept verbatim here, while the src/tools summariser drops it |
| IndexSummary.SplitCapped | src/index.ts:55 | `split(c, limit)` keeps at most `limit` pieces, and they are the first pieces of the full split |
| IndexSummary.ParseConversation | src/index.ts:50-60 | a record exactly when the value is present, non-empty, not 'null' and decodes to an object; its `composerId` is always undefined, since `split(':', 1)` has no second piece |
| IndexSummary.ParseAgreesWithLib | src/index.ts:50-60 | where the src/lib reader throws the server reads nothing; both accept the same records, which differ only in the lost `composerId` |
| IndexSummary.Messages | src/index.ts:66-94 | at most one message per inline entry, each with non-empty text |
| IndexSummary.Plain | src/index.ts:67-70 | the messages without their `bubbleId`, position for position |
| IndexSummary.MessagesAreInline | src/index.ts:66-94 | apart from the ids, the server extracts exactly what the shared inline rule extracts |
| IndexSummary.GetConversationSummary | src/index.ts:63-105 | the loop keeps each inline entry with non-empty text, with its role and `bubbleId`, and builds the summary from them |
| IndexSummary.SummaryShape | src/index.ts:96-104 | count is the number of messages, each has text, status defaults to 'completed', `lastUpdatedAt` falls back to `createdAt` when absent or 0, and the preview is the first message's opening or 'No preview available' |
| IndexSummary.InlineOnly | src/index.ts:66 | the map and the headers never affect the summary, and on inline-only records the messages are those of the src/tools summariser |
| ConversationTools.NotFound | src/tools/get-conversation.ts:9 | the error carries the text 'Conversation <id> not found' |
| ConversationTools.Load | src/tools/get-conversation.ts:5-13 | a missing, empty or 'null' value throws exactly the not-found error; malformed JSON throws a syntax error and the JSON `null` a type error; otherwise the stored record with only `composerId` replaced by the requested id |
| ConversationTools.GetConversation | src/tools/get-conversation.ts:4-21 | load errors propagate unchanged; the format 'full' returns the record carrying the requested id, any other format the summary |
| ConversationTools.FormatsAgree | src/tools/get-conversation.ts:15-20 | both formats fail together with the same error, and the summary format answers the src/tools summary (with the database fetch) of what 'full' answers |
| ConversationTools.ExportPath | src/tools/export-conversation.ts:48-49 | the path starts with '/tmp/cursor-conversation-' |
| ConversationTools.ExportPathRoundTrip | src/tools/export-conversation.ts:48-49 | the id and the extension can be read back from the path: the id after the fixed head, then '.', then the extension |
| ConversationTools.RoleName | src/tools/export-conversation.ts:30 | a block shows 'user' exactly for user messages and 'assistant' exactly for assistant messages |
| ConversationTools.BlockLayout | src/tools/export-conversation.ts:29-34 | a block opens with its '## Message k (role)' heading and a blank line, then the message's text and a blank line |
| ConversationTools.BlockOrder | src/tools/export-conversation.ts:29-35 | one block per message, in message order: message `k`'s block, numbered `k + 1`, sits between the blocks of the messages before and after it |
| ConversationTools.RenderingOrder | src/tools/export-conversation.ts:29-35 | the same for any block rendering and any starting number |
| ConversationTools.BlocksAppend | src/tools/export-conversation.ts:29-35 | the blocks of two runs of messages are concatenated, the second run's numbering continuing from the first |
| ConversationTools.Markdown | src/tools/export-conversation.ts:37-44 | the document begins with '# Conversation: <id>', a blank line and the Created label |
| ConversationTools.PrefixOfConcat | src/tools/export-conversation.ts:37-44 | a text starts with any text it is built on |
| ConversationTools.Export | src/tools/export-conversation.ts:6-53 | load errors propagate unchanged; on success the path is the '/tmp' file with extension 'json' for the format 'json' and 'md' otherwise |
| ConversationTools.ExportAgreesWithGet | src/tools/export-conversation.ts:17-46 | the export fails exactly when getConversation does, with the same error; the JSON file holds the full record, and the Markdown file the title, the header lines of the record and summary, then the summary's blocks |
| ToolCommon.NotFound | src/tools/messages.ts:12 | the error text is '<Kind> <id>' followed by ' not found in conversation <conversationId>' |
| ToolCommon.FirstRows | src/tools/messages.ts:26-31 | `WHERE key LIKE 'p%' LIMIT n` gives the first `n` rows of the family in store order, all of them when `n` is negative or large |
| ToolCommon.NarrowerScan | src/tools/messages.ts:24 | a conversation's rows are never more than its family's |
| MessageTools.ReportedId | src/tools/messages.ts:16 | the reported id is the stored `bubbleId` when non-empty, else the requested id |
| MessageTools.ListedId | src/tools/messages.ts:39 | the listed id is the stored `bubbleId` when non-empty, else the third colon-separated piece of the key, present exactly when the key has one |
| MessageTools.GetMessage | src/tools/messages.ts:7-17 | a missing, empty or 'null' row throws exactly 'Message <m> not found in conversation <c>'; malformed JSON and the JSON `null` throw; otherwise the stored message with its reported id |
| MessageTools.Snippet | src/tools/messages.ts:43 | a non-empty text gives its first 200 characters (the whole text when shorter), anything else '[No text content]' |
| MessageTools.Project | src/tools/messages.ts:40-48 | the role is user iff the type is 1; hasCodeBlocks and hasToolResults iff the arrays are non-empty; isAgentic iff it is true; the id and tokenCount are carried over |
| MessageTools.ListMessages | src/tools/messages.ts:22-59 | the listing gathers, in row order, the projection of every row among the first `limit` (default 100) of the conversation that holds a message; `count` is their number |
| MessageTools.ListBound | src/tools/messages.ts:26-36 | a listing holds at most `limit` messages |
| MessageTools.ListedFromRow | src/tools/messages.ts:35-52 | every listed message is the projection of a row of that conversation whose value decodes to the message, with its id from `bubbleId` or the key's third ':'-piece |
| MessageTools.ListAndGetAgree | src/tools/messages.ts:16-39 | for ids without ':', the listing and getMessage report the same id for a stored message |
| MessageTools.GetMessageStats | src/tools/messages.ts:64-109 | the total counts every message row; the five counters count the sampled rows (the first 100) holding a message with each property |
| MessageTools.Decoded | src/tools/messages.ts:85-88 | a sampled row holds a message exactly when its value is present and the decoder reads it as a message |
| MessageTools.StatsBounds | src/tools/messages.ts:98-108 | the sample holds at most 100 rows and no more than the total; user plus assistant messages, and each other counter, are at most the sample size |
| BubbleTools.GetBubble | src/tools/get-bubble.ts:7-16 | a missing, empty or 'null' row throws exactly 'Bubble <b> not found in conversation <c>'; malformed JSON throws; otherwise the parsed value, the JSON `null` included |
| BubbleTools.GetBubbleAgreesWithFetch | src/tools/get-bubble.ts:7-16 | getBubble returns a message exactly when getBubbleData finds that same message |
| BubbleTools.ListBubbles | src/tools/get-bubble.ts:21-60 | the listing gathers, in row order, the projection of every readable row among the first `limit` (default 100) of the conversation; `count` is their number |
| BubbleTools.BubblesAndMessages | src/tools/get-bubble.ts:34-58 | without JSON `null` rows, listBubbles lists exactly what listMessages lists (id from `bubbleId` else the key's third ':'-piece, 200-character text, flags); a `null` row is listed as an assistant message without text |
| BubbleTools.GetBubbleStats | src/tools/get-bubble.ts:65-111 | the total counts every bubble row, the sample is at most 100 rows, and the breakdown is the message breakdown of that sample |
| SnapshotTools.Project | src/tools/snapshots.ts:30-35 | fileCount and newFoldersCount are the array lengths or 0; hasInlineDiffs iff activeInlineDiffs is non-empty |
| SnapshotTools.IdFromKey | src/tools/snapshots.ts:28-29 | a key with fewer than two colons gives the empty id |
| SnapshotTools.ListSnapshots | src/tools/snapshots.ts:7-47 | the listing gathers, in row order, the projection of every readable row among the first `limit` (default 50) of the conversation; `count` is their number |
| SnapshotTools.ListedIdRoundTrip | src/tools/snapshots.ts:28-29 | for a conversation id without ':', the id read back from a snapshot key is the whole snapshot id, colons included, and is what parseSnapshotKey gives |
| SnapshotTools.GetSnapshot | src/tools/snapshots.ts:52-61 | a missing, empty or 'null' row throws exactly the not-found error and malformed JSON a syntax error; otherwise the stored fields, whose own `snapshotId` overrides the requested id, which fills in only when absent |
| SnapshotTools.SnapshotStats | src/tools/snapshots.ts:66-76 | the total is the number of snapshot rows, never more than the store holds |
| SnapshotTools.ListWithinStats | src/tools/snapshots.ts:7-47 | a listing never holds more snapshots than the limit or the family's total |
| CheckpointTools.Project | src/tools/get-checkpoints.ts:37-44 | the three counts are the array lengths or 0; hasNewResources iff the newly created resources have non-empty files or folders |
| CheckpointTools.Step | src/tools/get-checkpoints.ts:20-32 | a row is collected only when its value is present, non-empty, not 'null' and valid JSON, and at most once |
| CheckpointTools.ProjectAll | src/tools/get-checkpoints.ts:37-44 | the projection fails with a type error exactly when a collected value is the JSON `null`; otherwise one projection per entry, position for position |
| CheckpointTools.ListCheckpoints | src/tools/get-checkpoints.ts:7-46 | the listing collects, in row order, every readable row among the first `limit` (default 50), then projects them; `count` is the number collected |
| CheckpointTools.ProjectEntries | src/tools/get-checkpoints.ts:37-44 | the `map` loop computes exactly `ProjectAll`, stopping at the first JSON `null` |
| CheckpointTools.GetCheckpoint | src/tools/get-checkpoints.ts:51-60 | a missing, empty or 'null' row throws exactly 'Checkpoint <k> not found in conversation <c>'; malformed JSON exactly a syntax error; the JSON `null` is returned as null |
| CheckpointTools.CheckpointIsSnapshot | src/tools/get-checkpoints.ts:51-60 | getCheckpoint and getSnapshot read the same key: both fail together, and getSnapshot returns getCheckpoint's record with its `snapshotId` filled in |
| CheckpointTools.ListingMatchesSnapshots | src/tools/get-checkpoints.ts:20-44 | the listing succeeds exactly when no listed row holds the JSON `null`, and then lists the same rows as listSnapshots with the same ids and counts |
| CheckpointTools.RowMirrors | src/tools/get-checkpoints.ts:20-32 | on a row not holding the JSON `null`, a checkpoint row yields the entry the snapshot listing yields, id and counts alike |
| CheckpointTools.MirrorsJoin | src/tools/get-checkpoints.ts:20-44 | listings that mirror each other stretch by stretch mirror each other when joined |
| CheckpointTools.NullRows | src/tools/get-checkpoints.ts:20-32 | a JSON `null` is collected exactly when some listed row holds one |
| CheckpointTools.SameRows | src/tools/get-checkpoints.ts:20-32 | without `null` rows, the checkpoint loop collects a parsed record for exactly the rows listSnapshots projects, at the same positions |
| CheckpointTools.CheckpointStats | src/tools/get-checkpoints.ts:65-75 | the total is the size of the checkpoint family, the same number getSnapshotStats reports |
| DiffTools.ChangePreview | src/tools/diffs.ts:48 | at most 200 characters, an opening of the first three modified lines joined by '\n', and all of them when that join is short enough |
| DiffTools.ChangeSummaryOf | src/tools/diffs.ts:44-49 | startLine and endLine come from `original`, and linesAdded is the number of modified lines |
| DiffTools.ChangeSummaries | src/tools/diffs.ts:44-49 | one change summary per change, position for position |
| DiffTools.DiffSummaryOf | src/tools/diffs.ts:41-50 | the id is kept and changesCount is the number of changes, one summary each |
| DiffTools.ProjectAll | src/tools/diffs.ts:38-51 | the projection succeeds exactly when every change of every collected diff has `original` and `modified`, else it throws a type error; on success one summary per diff |
| DiffTools.ListDiffs | src/tools/diffs.ts:7-52 | the listing collects, in row order, the id and `newModelDiffWrtV0 \|\| []` of every readable row among the first `limit` (default 50), then projects them; `count` is the number collected |
| DiffTools.DiffRow | src/tools/diffs.ts:21-35 | one loop pass keeps exactly what `Step` keeps of the row |
| DiffTools.ProjectDiffs | src/tools/diffs.ts:41-50 | the outer `map` computes exactly `ProjectAll` |
| DiffTools.ProjectDiff | src/tools/diffs.ts:44-49 | the inner `map` succeeds exactly when every change is readable, and then gives that diff's summary |
| DiffTools.GetDiff | src/tools/diffs.ts:57-70 | a missing, empty or 'null' row throws exactly 'Diff <d> not found in conversation <c>'; malformed JSON and the JSON `null` throw; otherwise the requested id and `newModelDiffWrtV0 \|\| []` |
| DiffTools.ListAndGetAgree | src/tools/diffs.ts:23-24 | for a conversation id without ':', the listing collects for a stored diff the very record getDiff returns |
| DiffTools.ReadableRun | src/tools/diffs.ts:98-100 | the count of leading changes with `modified`; the next change, if any, lacks it |
| DiffTools.GetDiffStats | src/tools/diffs.ts:75-115 | the total counts every diff row; over the first 50, totalChanges sums the change counts and totalLinesModified the modified lengths up to a row's first unreadable change |
| DiffTools.StatsStep | src/tools/diffs.ts:92-104 | one more row keeps the listed change and line totals equal to the statistics over the rows so far |
| DiffTools.ListedSnoc | src/tools/diffs.ts:96-100 | a listed diff adds its change count and its added lines to the totals |
| DiffTools.ProjectSnoc | src/tools/diffs.ts:41-50 | when projecting a longer listing succeeds, its last diff is readable and adds its summary at the end |
| DiffTools.FullRun | src/tools/diffs.ts:98-100 | when every change has a modified text, the readable run covers them all |
| DiffTools.SumLines | src/tools/diffs.ts:47-100 | on readable changes, the lines the change summaries report add up to the lines the statistics count |
| DiffTools.AddLines | src/tools/diffs.ts:98-100 | the inner loop adds the lines of the changes before the first one without `modified`, where it throws |
| DiffTools.StatsMatchListing | src/tools/diffs.ts:38-104 | over rows the listing can project, the statistics' sums equal the listing's: totalChanges is the sum of changesCount and totalLinesModified the sum of linesAdded |
| DiffTools.AllLines | src/tools/diffs.ts:47 | a readable diff's lines are the sum of its changes' linesAdded |
| CodeDiffTools.Step | src/tools/get-code-diffs.ts:20-31 | a row is collected at most once, and only when its value is present, non-empty, not 'null' and valid JSON (the JSON `null` included) |
| CodeDiffTools.AsRecords | src/tools/get-code-diffs.ts:38-44 | each collected record reads as its changes, or none when `newModelDiffWrtV0` is absent, one per entry |
| CodeDiffTools.ProjectAll | src/tools/get-code-diffs.ts:36-45 | the projection fails only with a type error: on a collected JSON `null` or an unreadable change |
| CodeDiffTools.ListCodeDiffs | src/tools/get-code-diffs.ts:7-47 | the listing collects, in row order, every readable row among the first `limit` (default 50), then projects them; `count` is the number collected |
| CodeDiffTools.ProjectEntries | src/tools/get-code-diffs.ts:36-45 | the `map` loop computes exactly `ProjectAll` |
| CodeDiffTools.AgreesWithListDiffs | src/tools/get-code-diffs.ts:33-46 | without JSON `null` rows, listCodeDiffs answers exactly what listDiffs answers, projections and failure alike |
| CodeDiffTools.SameRecords | src/tools/get-code-diffs.ts:20-31 | without `null` rows, the collected records are those listDiffs collects |
| CodeDiffTools.NullThrows | src/tools/get-code-diffs.ts:38 | a listed row holding the JSON `null` makes listCodeDiffs throw a type error |
| CodeDiffTools.NullCollected | src/tools/get-code-diffs.ts:26-27 | a `null` row is collected |
| CodeDiffTools.GetCodeDiffStats | src/tools/get-code-diffs.ts:52-93 | the counters are those of getDiffStats: total rows, sample size, and the two integer sums |
| ContextTools.GitStatusPreview | src/tools/context.ts:37 | the preview is present exactly when the git status is non-empty; it is then a non-empty prefix of at most 200 characters, the whole status when that is short enough |
| ContextTools.Project | src/tools/context.ts:34-42 | the listing entry keeps the id, flags the git status exactly when it has a preview, and counts each optional array as its length or 0 when absent |
| ContextTools.Step | src/tools/context.ts:29-45 | one row yields at most one entry: missing, empty, 'null', malformed and JSON-`null` values are skipped |
| ContextTools.ListContexts | src/tools/context.ts:7-53 | the loop lists, in row order, what each of the first `limit` (default 50) rows of the conversation yields; `count` is the listing's length |
| ContextTools.ListRow | src/tools/context.ts:29-45 | the loop body computes the entry of one row |
| ContextTools.ListShape | src/tools/context.ts:11-46 | a listing holds at most `limit` entries, each the projection of a stored row of the conversation that decodes, under the id taken from its key |
| ContextTools.Full | src/tools/context.ts:67-76 | the full context keeps the git status and every stored array, with `[]` for an absent one |
| ContextTools.GetContext | src/tools/context.ts:58-77 | a missing, empty or 'null' value throws the not-found error; otherwise malformed JSON throws a syntax error, the JSON `null` a type error, and a context decodes to its full record |
| ContextTools.ListAndGetAgree | src/tools/context.ts:31-41 | for a conversation id without ':', the listing entry of a stored context is the projection of what getContext returns for it, id included |
| ContextTools.GetContextStats | src/tools/context.ts:82-124 | the loop counts, over the first 50 context rows, those that decode with a git status, with cursor rules, with todos and with project layouts; the total counts the whole family |
| ContextTools.Decoded | src/tools/context.ts:102-105 | a sampled row holds a context exactly when its value is present and the decoder reads it as a context |
| ContextTools.StatsBounds | src/tools/context.ts:89-116 | the sample holds at most 50 rows and no more than the total, and no counter exceeds the sample |
| ContextTools.StatsAgreeWithListing | src/tools/context.ts:105-108 | a row counts towards each statistic exactly when its listing entry shows that field set or a positive count |
| RequestContextTools.Step | src/tools/get-request-context.ts:20-31 | one row is collected at most once: with its parsed value, or as `null` for the JSON `null`; missing, empty, 'null' and malformed values are skipped |
| RequestContextTools.ProjectAll | src/tools/get-request-context.ts:36-44 | the `map` of the return statement throws a type error exactly when a collected value is `null`, and otherwise projects every entry in order as the context listing does |
| RequestContextTools.ListRequestContexts | src/tools/get-request-context.ts:7-46 | the loop collects what each of the first `limit` (default 50) rows of the conversation yields, then projects the collection; `count` is the number collected |
| RequestContextTools.CollectRow | src/tools/get-request-context.ts:21-30 | the loop body computes what one row yields |
| RequestContextTools.ProjectEntries | src/tools/get-request-context.ts:36-44 | the projection loop computes exactly `ProjectAll` |
| RequestContextTools.AgreesWithListContexts | src/tools/get-request-context.ts:7-46 | listRequestContexts throws a type error exactly when a listed row holds the JSON `null`; otherwise it lists exactly what listContexts lists |
| RequestContextTools.SameContexts | src/tools/get-request-context.ts:20-44 | the collection holds a `null` exactly when some row holds the JSON `null`, and otherwise projects to the context listing |
| RequestContextTools.NullsJoin | src/tools/get-request-context.ts:36-44 | a concatenation holds a `null` exactly when one of its parts does |
| RequestContextTools.NullsFromRows | src/tools/get-request-context.ts:20-31 | the collection holds a `null` exactly when some row's value is the JSON `null` |
| RequestContextTools.RowStep | src/tools/get-request-context.ts:21-27 | for one row: collected as `null` exactly for the JSON `null`, and otherwise projected to the context listing's entry |
| RequestContextTools.ProjectJoin | src/tools/get-request-context.ts:36-44 | the projection of a concatenation without `null` is the concatenation of the projections |
| RequestContextTools.SameProjection | src/tools/get-request-context.ts:36-44 | without `null`, projecting the collection gives the context listing of the same rows |
| RequestContextTools.GetRequestContext | src/tools/get-request-context.ts:51-60 | a missing, empty or 'null' value throws the not-found error; malformed JSON throws a syntax error; the JSON `null` is returned as `null` and a record as parsed |
| RequestContextTools.AgreesWithGetContext | src/tools/get-request-context.ts:51-60 | where getContext succeeds, getRequestContext returns the record whose full form getContext returned, and where getRequestContext throws, getContext throws too |
| RequestContextTools.GetRequestContextStats | src/tools/get-request-context.ts:65-108 | the statistics are those of getContextStats under the request-context names |
| QueryRules.Excerpt | src/tools/search-conversations.ts:32 | a text of at most 200 characters is kept whole; a longer one is cut to its first 200 characters followed by '...' |
| QueryRules.Matches | src/tools/search-conversations.ts:28-36 | every match points at a message of the summary |
| QueryRules.MatchesSound | src/tools/search-conversations.ts:28-36 | every match reports the message at its index, whose lower-cased text contains the query, with that message's role and excerpt; indices increase |
| QueryRules.MatchesComplete | src/tools/search-conversations.ts:28-36 | every message whose lower-cased text contains the query is matched |
| QueryRules.TopMatches | src/tools/search-conversations.ts:46 | the kept matches are the first three at most, and there are none exactly when nothing matched |
| QueryRules.CaseInsensitive | src/tools/search-conversations.ts:12 | queries equal once lower-cased find the same matches |
| QueryRules.UpperAndLowerQuery | src/tools/search-conversations.ts:12 | 'THE' and 'the' lower-case to the same query |
| QueryRules.SearchHit | src/tools/search-conversations.ts:38-48 | a conversation yields a result exactly when some message matches; the result carries one to three matches and the conversation's id |
| QueryRules.AdvancedDefaults | src/tools/search-conversations-advanced.ts:16-25 | the omitted options default to status 'all', sorting by date, descending, and a limit of 20 |
| QueryRules.AsDate | src/tools/search-conversations-advanced.ts:47 | a valid date is the given instant; a missing or out-of-range time gives an invalid date |
| QueryRules.PassesMeaning | src/tools/search-conversations-advanced.ts:49-53 | an entry passes exactly when it lies within the given date and message-count bounds, inclusive, and has the requested status unless that is 'all'; an unparsable bound or an entry without a valid date is never excluded by date |
| QueryRules.CountBoundsExample | src/tools/search-conversations-advanced.ts:51-52 | with minimum 5 and maximum 10, of the counts 0, 3, 5, 8, 10 and 12 exactly 5, 8 and 10 pass |
| QueryRules.ComparatorConsistent | src/tools/search-conversations-advanced.ts:68-80 | the comparator is a total preorder on the entries (when sorting by date, on entries with valid dates), so the sort orders them |
| QueryRules.SortedByCount | src/tools/search-conversations-advanced.ts:73-74 | sorted by message count, the counts never increase with 'desc' and never decrease otherwise |
| QueryRules.SortedByDate | src/tools/search-conversations-advanced.ts:71-72 | sorted by date, valid dates never increase with 'desc' and never decrease otherwise |
| QueryRules.Finish | src/tools/search-conversations-advanced.ts:67-86 | the answer reports every entry found, returns the smaller of that and the limit, holds a sub-multiset of the entries found and all of them when they fit the limit; whenever the comparator is consistent on them it is sorted and is the top of what was found: no entry left out comes before an entry returned |
| QueryRules.OrderByFor | src/tools/list-conversations.ts:28-39 | 'created' and 'updated' pick their own keys and anything else recent activity; the direction is the sort order upper-cased |
| QueryRules.ListDefaults | src/tools/list-conversations.ts:12-17 | the omitted options default to 50 rows from offset 0, by recent activity, descending |
| ToolsList.ParseRow | src/tools/list-conversations.ts:52-56 | a row yields a record exactly when its value is present, non-empty, not 'null' and decodes to an object; the record then carries the key minus the prefix as its `composerId` |
| ToolsList.Step | src/tools/list-conversations.ts:51-73 | a row adds one entry exactly when it parses |
| ToolsList.ListConversations | src/tools/list-conversations.ts:11-79 | the loop lists, in the requested order and within LIMIT and OFFSET, the entry of every fetched row that parses; `total` counts the whole family |
| ToolsList.ListRow | src/tools/list-conversations.ts:52-69 | the loop body computes the entry of one row |
| ToolsList.FetchedFromFamily | src/tools/list-conversations.ts:41-47 | the statement fetches only conversation rows, and every one of them when there is no offset and the family fits under the limit |
| ToolsList.ListSize | src/tools/list-conversations.ts:41-73 | the listing has one entry per fetched row that parses, hence at most `limit` |
| ToolsList.EntryFromRow | src/tools/list-conversations.ts:55-69 | every entry comes from a fetched row: its id is the key minus the prefix, its creation time the record's, and the other fields the summary's |
| ToolsSearch.WithConversationId | src/tools/search-conversations.ts:18-22 | malformed JSON gives nothing; a record, or the JSON `null` spread to an empty one, gains the conversation id |
| ToolsSearch.SearchConversations | src/tools/search-conversations.ts:4-57 | the loop's results are those of scanning the conversation rows in order and stopping once the results reach the limit (default 20) |
| ToolsSearch.SearchRow | src/tools/search-conversations.ts:15-50 | the loop body computes what one row yields |
| ToolsSearch.CaseInsensitiveSearch | src/tools/search-conversations.ts:12 | queries equal once lower-cased give the same results |
| ToolsSearch.SearchItems | src/tools/search-conversations.ts:38-48 | what a row yields carries one to three matches |
| ToolsSearch.SearchShape | src/tools/search-conversations.ts:14-56 | the search never throws; its results, in row order, stop at the first row after which they reach the limit (default 20), with no earlier prefix reaching it; when fewer than the limit are found they are those of every row; each carries one to three matches; with a positive limit there are at most `limit` |
| ToolsSearch.ResultsFromPrefix | src/tools/search-conversations.ts:14-54 | the results of the loop are those of a prefix of the rows that ends exactly where the results first reach the limit, or of every row when they stay below it; each has one to three matches |
| ToolsSearch.ResultsBound | src/tools/search-conversations.ts:50 | each row adds at most one result, so a positive limit is never exceeded |
| ToolsAdvancedSearch.Step | src/tools/search-conversations-advanced.ts:35-64 | a row adds its entry exactly when it qualifies (parses and passes every filter), and nothing otherwise |
| ToolsAdvancedSearch.SearchConversationsAdvanced | src/tools/search-conversations-advanced.ts:15-87 | the loop gathers the entries that pass, in row order, and the answer is `Finish` of them: sorted, cut to the limit, and the top of what was found |
| ToolsAdvancedSearch.AdvancedRow | src/tools/search-conversations-advanced.ts:36-61 | the loop body computes what one row adds |
| ToolsAdvancedSearch.ReturnedPass | src/tools/search-conversations-advanced.ts:46-61 | every returned entry passes the filters and is the entry of a qualifying conversation row, under that row's id |
| ToolsAdvancedSearch.StepYields | src/tools/search-conversations-advanced.ts:46-61 | a row yields an entry exactly when the row qualifies and the entry is its own; what it yields passes the filters and carries the row's id |
| ToolsAdvancedSearch.FoundEntry | src/tools/search-conversations-advanced.ts:35-65 | an entry is gathered exactly when it is the entry of some qualifying row; it then passes the filters and comes from a row that parses |
| ToolsAdvancedSearch.ByMessageCount | src/tools/search-conversations-advanced.ts:73-85 | sorted by message count, the returned counts never increase with 'desc' and never decrease otherwise |
| ToolsAdvancedSearch.TopByMessageCount | src/tools/search-conversations-advanced.ts:73-85 | sorted by message count, no conversation found and left out has more messages than a returned one with 'desc', or fewer otherwise |
| QueryRules.TopByCount | src/tools/search-conversations-advanced.ts:73-79 | the top by the message-count comparator: with 'desc' nothing left out has more messages, otherwise nothing has fewer |
| ToolsAdvancedSearch.WithinLimit | src/tools/search-conversations-advanced.ts:82-86 | the result holds `returned` entries, no more than the limit and no more than were found |
| ToolsAdvancedSearch.Candidate | src/tools/search-conversations-advanced.ts:36-61 | a row has an entry exactly when it parses as a conversation, and the entry's id is the key minus the prefix |
| ToolsAdvancedSearch.TotalFoundCounts | src/tools/search-conversations-advanced.ts:35-86 | `totalFound` is the number of qualifying conversation rows; each one's entry is found, and is returned when all of them fit the limit |
| LibList.Step | src/lib/listConversations.ts:48-61 | a row throws exactly when parseConversation throws on it, and otherwise adds at most one entry |
| LibList.ListConversations | src/lib/listConversations.ts:5-68 | the loop lists the entry of every fetched row in order and reports the family's size, or stops with the first exception |
| LibList.ListRow | src/lib/listConversations.ts:49-61 | the loop body computes what one row adds or raises |
| LibList.ListingFails | src/lib/listConversations.ts:45-62 | the listing throws exactly when a fetched row holds a non-empty value that is malformed JSON or the JSON `null`; a successful listing has at most `limit` entries |
| LibSearch.Step | src/lib/searchConversations.ts:16-47 | a row throws exactly when parseConversation throws on it, and is skipped exactly when it has no value |
| LibSearch.SearchConversations | src/lib/searchConversations.ts:5-51 | the loop's answer is that of scanning the conversation rows in order, stopping at the first exception or once the results reach the limit (default 20) |
| Scans.UntilNext | src/lib/searchConversations.ts:16-48 | scanning from a row on is that row's outcome followed by the scan of the rest: skip, stop with its exception, stop once the results reach the limit, or go on |
| LibSearch.SearchRow | src/lib/searchConversations.ts:17-45 | the loop body computes what one row yields |
| LibSearch.SearchFails | src/lib/searchConversations.ts:16-48 | a search that throws has met a row with a non-empty value that is malformed JSON or the JSON `null`; without such a row it succeeds |
| LibSearch.SearchShape | src/lib/searchConversations.ts:16-50 | a successful search keeps row order; its results stop at the first row after which they reach the limit (default 20), with no earlier prefix reaching it; when fewer than the limit are found they are those of every row; each carries one to three matches; with a positive limit there are at most `limit` |
| LibSearch.SearchItems | src/lib/searchConversations.ts:35-45 | what a row yields carries one to three matches |
| LibSearch.ResultsFromPrefix | src/lib/searchConversations.ts:16-48 | the results of the loop are those of a prefix of the rows that ends exactly where the results first reach the limit, or of every row when they stay below it; each has one to three matches |
| LibSearch.ResultsBound | src/lib/searchConversations.ts:47 | each row adds at most one result, so a positive limit is never exceeded |
| LibAdvancedSearch.Step | src/lib/searchConversationsAdvanced.ts:26-54 | a row throws exactly when parseConversation throws on it; otherwise it adds its entry exactly when it qualifies, and nothing else |
| LibAdvancedSearch.SearchConversationsAdvanced | src/lib/searchConversationsAdvanced.ts:5-77 | the loop gathers the passing entries in row order, or stops with the first exception; the answer is `Finish` of them: sorted, cut to the limit, and the top of what was found |
| LibAdvancedSearch.AdvancedRow | src/lib/searchConversationsAdvanced.ts:27-53 | the loop body computes what one row adds or raises |
| LibAdvancedSearch.ReturnedPass | src/lib/searchConversationsAdvanced.ts:33-54 | every returned entry passes the filters and is the entry of a qualifying conversation row |
| LibAdvancedSearch.FoundPass | src/lib/searchConversationsAdvanced.ts:33-54 | every entry the loop gathers passes the filters and is the entry of a qualifying conversation row |
| LibAdvancedSearch.Candidate | src/lib/searchConversationsAdvanced.ts:27-53 | a row has an entry exactly when parseConversation returns a record for it |
| LibAdvancedSearch.TotalFoundCounts | src/lib/searchConversationsAdvanced.ts:26-77 | when the search succeeds, `total_found` is the number of qualifying conversation rows, and each one's entry is returned when all of them fit the limit |
| IndexHandlers.Respond | src/index.ts:278-288 | a handler answers its result on success, and on an exception the message under the handler's own context, flagged as an error |
| IndexHandlers.OrNumber | src/index.ts:226-227 | a numeric argument is used when given and non-zero, and the default replaces it otherwise |
| IndexHandlers.IsoDate | src/index.ts:250-251 | a missing or zero time renders as `null`; any other time renders as itself, except that one beyond what a Date can hold throws a range error |
| IndexHandlers.EntryAt | src/index.ts:245-252 | an entry carries the summary's id, count, status and preview and the two rendered dates, and fails with a range error exactly when one of the dates cannot be rendered |
| IndexHandlers.CompareDates | src/index.ts:257-261 | comparing two date keys gives -1, 0 or 1 |
| IndexHandlers.CompareDatesAntisymmetric | src/index.ts:257-261 | swapping two date keys negates their comparison |
| IndexHandlers.CompareDatesTransitive | src/index.ts:257-261 | the date comparison is transitive |
| IndexHandlers.ListStep | src/index.ts:241-254 | a row adds at most one entry, and can only throw a range error |
| IndexHandlers.RecentFirstConsistent | src/index.ts:257-261 | the most-recent-first comparator is a total preorder, so the sort orders by it |
| IndexHandlers.Paginate | src/index.ts:257-273 | the page reports the number of entries listed and `returned` is its size; for an offset within the list and a non-negative limit (defaults 0 and 50) it is exactly the window from `offset` of up to `limit` entries of the list sorted most recent first, and from an offset past the end it is empty |
| IndexHandlers.ListConversations | src/index.ts:225-289 | the handler answers `Paginate` of the entries of the family read in key order, which is the window from `offset` of up to `limit` entries sorted most recent first, or the exception under 'Error listing conversations' |
| IndexHandlers.ListRows | src/index.ts:241-254 | the loop collects every row's entry in order, or stops with the first exception |
| IndexHandlers.PageOrdered | src/index.ts:257-264 | the page is a sub-multiset of the listed entries, most recent first |
| IndexHandlers.PageWindow | src/index.ts:257-264 | the list sorted most recent first is a sorted permutation of the entries, and the page is its window from `offset` of up to `limit` entries |
| IndexHandlers.PagesTile | src/index.ts:264 | paging skips and repeats nothing: the page at `offset` followed by the page at `offset + limit` is the page of twice the size at `offset` |
| IndexHandlers.ListedWithoutId | src/index.ts:246 | no listed entry carries a conversation id, the server's reader never recovering one |
| IndexHandlers.ListRow | src/index.ts:242-253 | the loop body computes what one row adds or raises |
| IndexHandlers.ListShape | src/index.ts:225-289 | the listing is never refused and fails only with a range error; otherwise its page reports the number listed, is the window from `offset` of up to `limit` entries of the list sorted most recent first (for an offset within the list and a non-negative limit), holds a sub-multiset of the entries, most recent first, none with an id |
| IndexHandlers.SliceSorted | src/index.ts:264 | a slice of a sorted sequence is sorted |
| IndexHandlers.SearchStep | src/index.ts:318-348 | a row is skipped when unreadable, and otherwise yields at most one result, one with one to three matches and no id, or a range error |
| IndexHandlers.SearchConversations | src/index.ts:291-370 | the handler refuses an empty query and otherwise answers the scan of the family that stops once the results reach the limit (default 20), or the exception under 'Error searching conversations' |
| IndexHandlers.SearchRow | src/index.ts:319-346 | the loop body computes what one row yields |
| IndexHandlers.SearchRefusals | src/index.ts:295-305 | the search is refused exactly when no query is given, and fails only with a range error |
| IndexHandlers.SearchItems | src/index.ts:336-346 | what a row yields carries one to three matches and no id |
| IndexHandlers.UntilSearchShape | src/index.ts:318-349 | the loop's results are those of a prefix of the rows that ends exactly where they first reach the limit, or of every row when they stay below it; each has one to three matches and no id; at most a positive limit |
| IndexHandlers.SearchShape | src/index.ts:307-358 | an answered search holds, in store order, the results of the conversation rows up to the first row after which they reach the limit (default 20), or of every row when they stay below it; each has one to three matches and no id, and there are at most a positive limit |
| IndexHandlers.SearchIgnoresCase | src/index.ts:316 | queries equal once lower-cased answer alike |
| IndexHandlers.GetConversation | src/index.ts:372-442 | the handler refuses a missing id and a missing, empty or 'null' value; otherwise it answers the summary for the format 'summary' (a type error when the value does not read as a record) and the record as read for any other format |
| IndexHandlers.GetAgreesWithTool | src/index.ts:388-430 | the server and the get_conversation tool of src/tools read the same record: both report it missing together, and where the tool reads it the server answers it, or its summary, without the id the tool adds |
| IndexHandlers.GetFormats | src/index.ts:374 | without a format the answer is the summary; with a format other than 'summary' it is the record |
| IndexHandlers.Settings | src/index.ts:446-453 | the lower date bound defaults to the epoch and the upper to now, an unparsable date being NaN; a missing or zero maximum is unbounded; the limit defaults to 20 |
| IndexHandlers.AdmitsMeaning | src/index.ts:471-480 | a conversation is kept exactly when it was last active no earlier than the lower bound, created no later than the upper bound (an unparsable bound never excludes), its count lies within the inclusive bounds, and its status is the one asked for unless that is 'all' |
| IndexHandlers.AdvancedDefaults | src/index.ts:446-453 | with no arguments, every conversation created up to now and active since the epoch is kept, sorted by date descending, 20 at most |
| IndexHandlers.AdvancedStep | src/index.ts:464-490 | a row adds one entry exactly when it qualifies (a readable conversation that passes the tests), drawn from that conversation with its count, status and preview and no id; it throws only a range error, and only on a qualifying row |
| IndexHandlers.AdvancedOrderConsistent | src/index.ts:493-509 | every key and direction gives a total preorder, so the sort orders by it |
| IndexHandlers.Rank | src/index.ts:493-521 | the answer reports the number kept, and `returned` is the page's size, the smaller of that number and a non-negative limit; the page is sorted by the requested key and direction and is the top of what was kept: no entry left out comes before an entry returned |
| IndexHandlers.SearchAdvanced | src/index.ts:444-537 | the loop keeps the entries that pass in row order, or stops with the first exception, answered under 'Error in advanced search'; the answer is `Rank` of what was kept: sorted, the smaller of the number kept and the limit, and the top of what was kept |
| IndexHandlers.AdvancedRow | src/index.ts:465-489 | the loop body computes what one row adds or raises |
| IndexHandlers.KeptRow | src/index.ts:464-490 | a row that does not throw adds one entry when it qualifies and none otherwise, drawn from that row's conversation |
| IndexHandlers.KeptAreAdmitted | src/index.ts:464-490 | an entry is kept for every qualifying row and only for them: the number kept is the number of qualifying rows |
| IndexHandlers.AdvancedShape | src/index.ts:444-537 | the advanced search is never refused and fails only with a range error; otherwise it reports the number of qualifying rows, answers the smaller of that number and a non-negative `limit`, all of them when they fit, sorted by the requested key and direction, and the top of them: no qualifying entry left out comes before one returned |
| Cli.FlagValue | src/cli.ts:89 | a flag's value is never empty: it is the next argument, or 'true' when that is missing or empty |
| Cli.FlagsRead | src/cli.ts:86-91 | every position the loop reads as a flag lies at or after the start and holds an argument beginning with '--' |
| Cli.ParseArgs | src/cli.ts:84-94 | the loop builds exactly the options read left to right, each flag consuming the argument after it |
| Cli.FlagsReadExactly | src/cli.ts:86-91 | an argument is read as a flag exactly when it begins with '--' and the argument before it was not read as a flag |
| Cli.ValueAlwaysConsumed | src/cli.ts:89-90 | the argument after a flag is never read as a flag, whatever it starts with |
| Cli.OptionsKeys | src/cli.ts:87-89 | there is an option exactly for the name (the text after '--') of each argument read as a flag |
| Cli.LaterFlagWins | src/cli.ts:88-89 | an option's value is the value of the last flag read with that name: the argument after it, or 'true' |
| Cli.NoFlagsNoOptions | src/cli.ts:87 | arguments without a flag give no option |
| Cli.ConsumedExample | src/cli.ts:89-90 | `--a --b x` sets only `a`, to '--b' |
| Cli.LaterFlagExample | src/cli.ts:88-89 | of two flags of one name the later wins; a flag at the end, or before an empty argument, is 'true' |
| Cli.Positional | src/cli.ts:107 | the positional words are arguments that are not flags, and every argument that is not a flag is one of them |
| Cli.PositionalAppend | src/cli.ts:107 | the filter keeps order and multiplicity: the words of a concatenation are the words of each part in turn |
| Cli.NumberOpt | src/cli.ts:113 | a numeric option is absent when its flag is missing or empty, and otherwise is what `parseInt` makes of the flag's value |
| Cli.Run | src/cli.ts:100-107 | the usage is shown exactly when the command is missing, empty or a help spelling; an unknown command is reported by its own name |
| Cli.Dispatch | src/cli.ts:110-245 | the `switch` never shows the usage, reports a command as unknown exactly when it is none of its fifteen cases, and fails only with a missing-id or missing-query message |
| Cli.DispatchPart | src/cli.ts:167-227 | the four part commands all go through the same two-id check |
| Cli.NotFlag | src/cli.ts:107 | an argument shorter than two characters, or not starting with '-', is not a flag |
| Cli.UsageAndUnknown | src/cli.ts:100-104 | no command, an empty one and the three help spellings show the usage; a command outside the `switch` is reported as unknown |
| Cli.IdsRequired | src/cli.ts:120-165 | the single-conversation commands fail with 'conversationId required' exactly when the first positional word is missing or empty, and otherwise call the library on that word |
| Cli.PartIdsRequired | src/cli.ts:167-227 | the part commands fail with their own message exactly when either of the first two positional words is missing or empty, and otherwise call the library on those two words |
| Cli.SearchJoinsFlagValues | src/cli.ts:128-131 | `search foo --limit 5` searches for 'foo 5' with the limit parsed from '5' |
| Cli.GetTakesFlagValue | src/cli.ts:120-123 | `get --format full abc` reads the conversation 'full' in the format 'full' |
| Cli.OnlyFlags | src/cli.ts:107 | arguments that are all flags give no positional word |
| Cli.SearchNeedsQuery | src/cli.ts:129-130 | a search whose arguments are all flags fails with 'search query required' |
| ExtractScript.ComposerIdOf | scripts/extract_conversations.py:55 | the id is everything after the key's first ':', and a key without ':' raises an index error |
| ExtractScript.ComposerIdOfKey | scripts/extract_conversations.py:55 | a conversation key gives back the id it was built from, colons in the id included |
| ExtractScript.Read | scripts/extract_conversations.py:54-67 | a row raises only an index error or a type error (for the JSON `null`); a NULL, 'null' or malformed value reads as nothing; a record carries the id of its key |
| ExtractScript.ExtractConversations | scripts/extract_conversations.py:36-70 | the loop gathers, in row order, the record of every row it reads and counts the rows read as nothing, or stops with the first exception |
| ExtractScript.ReadStep | scripts/extract_conversations.py:54-67 | one more row grows the records gathered and the null count by what that row reads as |
| ExtractScript.ReadRow | scripts/extract_conversations.py:55-67 | the loop body computes what one row reads as |
| ExtractScript.CountSplit | scripts/extract_conversations.py:54-67 | the rows satisfying a test and those failing it make up all the rows |
| ExtractScript.EveryRowAccounted | scripts/extract_conversations.py:54-70 | the extraction fails exactly when some row raises; otherwise every row is either a record or counted as null, exactly once |
| ExtractScript.FamilyKeys | scripts/extract_conversations.py:45-55 | every key of the conversation family has a ':', and its id is what follows the prefix |
| ExtractScript.FamilyKey | scripts/extract_conversations.py:55 | a key with the conversation prefix gives the id after the prefix, and is that id's key |
| ExtractScript.FailsOnNull | scripts/extract_conversations.py:61-64 | over rows whose keys all have a ':', only a value that parses to `null` makes the loop fail, with a type error |
| ExtractScript.FamilyFailsOnNull | scripts/extract_conversations.py:45-67 | over the conversation family the extraction can only fail with a type error |
| ExtractScript.FamilyIds | scripts/extract_conversations.py:54-64 | every extracted record carries an id whose conversation key is in the store |
| ExtractScript.RecordsFromRows | scripts/extract_conversations.py:54-64 | each extracted record is what some row reads as |
| ExtractScript.ReadYields | scripts/extract_conversations.py:61-64 | a record a row contributes is what that row reads as |
| ExtractScript.ScriptTextRule | scripts/extract_conversations.py:78-90 | for user and assistant messages the script takes the text the server takes; a message of another type keeps its own text, as an assistant message |
| ExtractScript.ScriptMessages | scripts/extract_conversations.py:77-93 | at most one message is kept per inline entry, each with a non-empty text |
| ExtractScript.Summarise | scripts/extract_conversations.py:73-99 | the loop builds the summary: the record's id, the kept messages in order and their number |
| ExtractScript.ScriptAgreesWithServer | scripts/extract_conversations.py:77-93 | when every entry is a user or assistant message, the script keeps exactly the messages the server keeps |
| ExtractScript.OtherTypeKept | scripts/extract_conversations.py:79 | a type-3 message with a text is kept by the script, as an assistant message, and dropped by the server |
| ExtractScript.SummaryCounts | scripts/extract_conversations.py:95-99 | the summary counts exactly the messages it holds, each with text, and no more than the record's entries |
| ExtractScript.Preview | scripts/extract_conversations.py:124-128 | without messages the preview is 'Empty conversation'; otherwise it is the first message's text, cut to 100 characters with '...' appended when at least that long |
| ExtractScript.IndexRowOf | scripts/extract_conversations.py:118-129 | an index entry holds the summary's message count and its preview |
| ExtractScript.Index | scripts/extract_conversations.py:109-129 | the index has one entry per conversation, in order |
| ExtractScript.BuildIndex | scripts/extract_conversations.py:107-129 | the loop builds exactly the index |
| ExtractScript.NamesDistinct | scripts/extract_conversations.py:113-119 | distinct ids get distinct full and summary files, and a full file is never a summary file |
| ExtractScript.TopTenOrdered | scripts/extract_conversations.py:144-146 | the README lists the smaller of ten and the number of conversations, with non-increasing message counts |
| ExtractScript.TopTenDominates | scripts/extract_conversations.py:144-146 | the README lists entries of the index, and every entry left out has no more messages than any listed |
| ExtractScript.ByCountSorted | scripts/extract_conversations.py:144 | the sorted index is a reordering of the index with non-increasing counts |
| ExtractScript.TopOfSorted | scripts/extract_conversations.py:146 | the first ten of such a reordering are ordered and outnumber everything after them |
| ExtractScript.ByCountConsistent | scripts/extract_conversations.py:144 | ordering by count is a total preorder |
| ExtractScript.CountsDescend | scripts/extract_conversations.py:144 | sorted by the count comparator, counts never increase |
| ExtractScript.SplitSorted | scripts/extract_conversations.py:146 | cutting a sequence with non-increasing counts, nothing after the cut has more messages than anything before it |
| ExtractScript.Readme | scripts/extract_conversations.py:136-148 | the README opens with its title, the total number of conversations and the section heading |
| Text.OrString | src/tools/search-conversations.ts:43 | `a \|\| b` on a text is `a` when it is present and non-empty and the fallback otherwise, so a non-empty fallback makes it non-empty |
| Text.Take | src/tools/search-conversations.ts:42 | `substring(0, n)` is the prefix of length n, or the whole text when it is no longer |
| Text.IndexOf | src/core/database/keys.ts:55 | `indexOf` is -1 exactly when the character is absent, and otherwise the position of its first occurrence |
| Text.Split | src/tools/context.ts:31 | `split` gives at least one piece, none containing the separator |
| Text.Drop | src/tools/context.ts:32 | `slice(k)` keeps all but the first k pieces |
| Text.IndexOfConcat | src/core/database/keys.ts:55 | in a text made of a separator-free head, the separator and a tail, the first separator follows the head |
| Text.SplitConcat | src/tools/context.ts:31 | splitting such a text gives the head, then the split of the tail |
| Text.SplitFirst | src/lib/parseConversation.ts:4 | the first piece of a split is the whole text exactly when the separator does not occur |
| Text.JoinSplit | src/tools/context.ts:31-32 | joining the pieces of a split with the separator gives back the text |
| Text.SplitJoin | src/tools/context.ts:31-32 | splitting a join of separator-free pieces gives back the pieces |
| Text.SplitTail | src/tools/context.ts:31-32 | the pieces after the first are the split of what follows the first separator, and joining them gives that text back |
| Text.ToLower | src/tools/search-conversations.ts:12 | lower-casing keeps the length and folds each character on its own |
| Text.ToLowerIdempotent | src/tools/search-conversations.ts:12 | lower-casing twice changes nothing more than once |
| Text.ToUpper | src/tools/list-conversations.ts:30 | upper-casing keeps the length and maps each character on its own |
| Text.TrimStart | src/tools/helpers.ts:100 | trimming the start removes exactly the leading white space |
| Text.TrimEnd | src/tools/helpers.ts:100 | trimming the end removes exactly the trailing white space |
| Text.TrimEmpty | src/tools/helpers.ts:100 | a text trims to nothing exactly when it is all white space |
| Text.NatToString | scripts/extract_conversations.py:147 | a count prints as a non-empty run of decimal digits |
| Text.Compare | src/tools/search-conversations-advanced.ts:76 | the string comparison gives -1, 0 or 1 |
| Text.CompareAntisymmetric | src/tools/search-conversations-advanced.ts:76 | swapping two strings negates their comparison, which is 0 exactly on equal strings |
| Text.CompareTransitive | src/tools/search-conversations-advanced.ts:76 | the string comparison is transitive |
| Sorting.Insert | src/tools/search-conversations-advanced.ts:68-80 | inserting an element adds exactly that element |
| Sorting.Sort | src/tools/search-conversations-advanced.ts:68-80 | sorting yields a permutation of its input |
| Sorting.InsertSorted | src/tools/search-conversations-advanced.ts:68-80 | inserting into a sorted sequence under a consistent comparator keeps it sorted |
| Sorting.SortCorrect | src/tools/search-conversations-advanced.ts:68-80 | sorting yields a permutation, sorted whenever the comparator is a total preorder on the elements |
| Sorting.SortedPrefixTop | src/tools/search-conversations-advanced.ts:85 | the first elements of a sorted sequence are its top: none of them comes after an element left out |
| Records.Lookup | src/tools/context.ts:60 | a point lookup finds a stored row with that key, or there is none |
| Records.ScanPrefix | src/tools/context.ts:11-16 | a prefix scan returns stored rows whose keys start with the prefix, and every such row |
| Records.ScanPrefixAppend | src/tools/context.ts:11-16 | the scan keeps store order: the matches of two stretches of the store are those of the first, then those of the second |
| Records.OrTime | src/tools/search-conversations.ts:45 | `a \|\| b` on timestamps is `a` when it is present and non-zero, and `b` otherwise |
| Scans.Count | src/tools/context.ts:96-112 | a counter never exceeds the number of rows |
| Scans.GatherAppend | src/tools/context.ts:28-46 | running a loop over two stretches of rows gathers the items of the first, then of the second |
| Scans.GatherCount | src/tools/list-conversations.ts:51-73 | when each row adds one item exactly when it passes a test, there is one item per passing row |
| Scans.GatherFrom | src/tools/context.ts:28-46 | every item gathered was added by some row |
| Scans.GatherHas | src/tools/context.ts:28-46 | every item a row adds is gathered |
| Scans.GatherAtMostOne | src/tools/context.ts:28-46 | a loop adding at most one item per row gathers no more items than rows |
| Scans.GatherCongruent | src/tools/context.ts:28-46 | two loops whose bodies agree on every row gather the same items |
| Scans.CountDisjoint | src/tools/messages.ts:64-109 | the counters of two properties no row has together add up to at most the number of rows |
| Scans.CountMonotone | src/tools/messages.ts:64-109 | a counter of a property that implies another is at most the other's counter |
| Scans.CollectFailureSticks | src/lib/listConversations.ts:48-62 | once a row has thrown, the whole loop throws that exception |
| Scans.CollectWithoutFailure | src/lib/listConversations.ts:48-62 | a loop none of whose rows throws collects what the non-throwing loop gathers |
| Scans.CollectFrom | src/lib/listConversations.ts:48-62 | every item collected was added by some row that did not throw |
| Scans.CollectHas | src/lib/listConversations.ts:48-62 | every item a non-throwing row adds is collected |
| Scans.CollectCount | src/lib/listConversations.ts:48-62 | when each row that does not throw adds one item exactly when it passes a test, the items collected number the passing rows |
| Scans.CollectFails | src/lib/listConversations.ts:48-62 | the loop throws exactly when some row throws, and then it throws that row's exception |
| Scans.Until | src/tools/search-conversations.ts:14-54 | the loop with `break` never loses a result gathered before |
| Scans.UntilIsPrefixScan | src/tools/search-conversations.ts:14-54 | a loop with `break` that does not throw gathers what some prefix of the rows gives, ending early only once the limit is reached and not before that prefix's end |
| Scans.RunShift | src/tools/search-conversations.ts:14-54 | a row that adds nothing, or keeps the results under the limit, extends a prefix run by one row |
| Scans.UntilComplete | src/tools/search-conversations.ts:14-54 | a loop with `break` that ends below its limit has visited every row |
| Scans.UntilStops | src/tools/search-conversations.ts:14-54 | the loop stops at the first prefix whose results reach the limit, and otherwise gathers every row |
| Scans.UntilFails | src/lib/searchConversations.ts:16-48 | a loop with `break` throws only the exception of one of its rows |
| Scans.UntilSucceeds | src/lib/searchConversations.ts:16-48 | a loop with `break` none of whose rows throws never throws |
| Scans.UntilBound | src/tools/search-conversations.ts:50 | with a positive limit and at most one result per row, the loop stops at the limit |
| Scans.SqlPage | src/tools/list-conversations.ts:46 | `LIMIT n OFFSET k` gives at most n rows of the input, the stretch starting at k, and none when k is past the end |
| Scans.SliceIndex | src/index.ts:264 | a `slice` index lands within the sequence |
| Scans.JsSlice | src/index.ts:264 | `slice(start, end)` with non-negative bounds is the stretch between them, clamped to the length |
| Scans.SliceSubMultiset | src/index.ts:264 | a slice holds no element more often than the sequence it is cut from |
| Scans.SliceFromStart | src/index.ts:512 | `slice(0, limit)` is the first `limit` elements, or all of them |
| Scans.SlicePrefix | src/index.ts:512 | `slice(0, end)` is always a prefix, for a negative `end` too |
| Scans.SliceJoin | src/index.ts:264 | adjacent slices join into one |
| BubbleTools.Step | src/tools/get-bubble.ts:34-45 | one row yields at most one listing entry |
| MessageTools.Step | src/tools/messages.ts:35-52 | one row yields at most one listing entry |
| SnapshotTools.Step | src/tools/snapshots.ts:25-40 | one row yields at most one listing entry |
| DiffTools.Step | src/tools/diffs.ts:20-36 | one row is collected at most once |

## Left out

- SQLite access: the database is a sequence of rows. `LIKE 'p%'` is a case-sensitive prefix test. SQLite's LIKE ignores ASCII case and treats `_` and `%` inside ids as wildcards; neither is modelled.
- `ORDER BY json_extract(...) LIMIT/OFFSET` in the list functions: row order is a parameter (`order`, of type `RowOrder`, any rearrangement of the rows) applied to the ORDER BY clause that the code selects; which rearrangement SQLite picks for each key is not modelled. `LIMIT`/`OFFSET` are modelled as a slice of that order.
- QueryRules.OrderByFor: keeps the direction as the upper-cased `sortOrder` text. The source splices that text into the SQL statement, so a text other than 'ASC' or 'DESC' makes SQLite reject the statement or changes its meaning; the model does not render SQL and does not capture either.
- `JSON.parse`, `json.loads` and `JSON.stringify`: decoding is a parameter, and the JSON text of responses and exported files is not rendered. Non-object JSON values other than `null` are not distinguished from records.
- Empty values: the decoder decides what the empty text means. Python's `json.loads('')` raises, so the script counts such a row as null; the model leaves that to the decoder rather than forcing `""` to be malformed.
- Strings are sequences of code points, not UTF-16 units, so the 100- and 200-character cuts count code points.
- `toLowerCase` is an ASCII case fold (`Text.ToLower`); full Unicode case mapping is not modelled.
- `localeCompare` is code-point order (`Text.Compare`); locale collation is not modelled.
- `new Date(...)` and `toISOString`: timestamps are integers (epoch milliseconds). `IndexHandlers.IsoDate` stands for an ISO date text by its instant. A timestamp outside the range of `Date` is an invalid date (`QueryRules.AsDate` gives `None`).
- IndexHandlers.CompareDates: orders two valid ISO date texts by their instants. That matches comparing the texts only for years 0000 to 9999, which `toISOString` writes as four digits (instants from -62167219200000 to 253402300799999 ms). Outside that range it writes a sign and six digits (`+010000-01-01T…`, `-000001-…`), and a text comparison puts those before every four-digit year. So for such dates the model's order differs from the server's in `IndexHandlers.RecentFirst` (the list order) and in the date sort of `IndexHandlers.AdvancedOrder`. The sorting and top-of-list properties proved for those orders hold for the model's order, not for the server's order on such dates.
- `Date.now()` is the parameter `now`, and `parseInt` in the CLI is a parameter that returns `None` for NaN.
- Cli.NumberOpt: in the source, `parseInt` of a flag value that is not a number gives NaN, and NaN reaches the library. With a NaN limit, search never stops early (`results.length >= NaN` never holds), so it returns every match. Advanced search returns no conversation (`slice(0, NaN)` is empty), and the list queries bind NaN as their SQL `LIMIT`. The model turns NaN into an absent option, so `--limit abc` acts like no `--limit` and gets the library's default.
- Floating point: `avgChangesPerDiff` (`toFixed(2)`) and the sample averages in the stats tools are not computed; the integer counters and sums are.
- File writes: `writeFileSync` in the export tool and the file output of `save_conversations`. Only path, name and content construction are modelled, and `path.join` normalisation is not.
- MCP glue: server creation, tool registration, request dispatch, the JSON text of tool responses, prompts and tool annotations.
- Console output and process exit codes in the CLI and the script: the CLI's outcome is a `Cli.Call` value naming the operation it would run or the message it would print. The script's warning print is not modelled.
- `src/core/index.ts` and `src/tools/database-stats.ts` are not part of this model. The `KEY_PATTERNS` aliases and key helpers that the tools import from them are taken to be the literals of `src/core/database/keys.ts`.
- `getMessageData`, which `src/tools/search-conversations.ts` imports, is taken to be the same fetch as `getBubbleData` in `src/tools/helpers.ts`.
- In-place `Array.prototype.sort` and `list.sort`: sorting is a function on sequences. Both are stable sorts (ECMAScript 2019 requires it of `Array.prototype.sort`), and the model uses a stable insertion sort.
- Sorting.SortCorrect: states that the result is sorted and a permutation of the input, but not that elements comparing equal keep their input order. Stability holds of the insertion sort but is not proved.
- ExtractScript.Summarise: a `conversation` or `responseParts` field holding JSON `null` is read like a missing one, as `[]`. In the script `get('conversation', [])` then returns `None` and the `for` loop raises `TypeError`, which `main` catches, printing the error and exiting with 1 after writing the files of the earlier conversations. Records hold such a field as an option, which does not tell `null` from absent, so `ExtractScript.CreateSummary`, `ExtractScript.Index` and `ExtractScript.BuildIndex` do not capture that failure.
- Python dictionary key order in the script's JSON output, and the contents of the per-conversation JSON dumps.
- Debug scripts, test harnesses and clients, and `src/core/types.ts` (interfaces only; the datatypes follow it).
