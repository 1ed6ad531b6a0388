/**
 * The rich-text decoder (src/core/rich-text.ts): flattens a Lexical editor document, a tree of
 * typed nodes, into plain text. JSON decoding is a parameter of the model.
 */
module RichText {
  import opened Wrappers
  import opened Text
  import Records

  /** A Lexical node; absent JSON fields are `None`. */
  datatype LexicalNode = LexicalNode(
    nodeType: Option<string>,
    text: Option<string>,
    children: Children,
    mentionName: Option<string>)

  /** The `children` field: absent, or an array of nodes (an empty array is still present). */
  datatype Children = NoChildren | Children(nodes: seq<LexicalNode>)

  /** The decoded document: `{ root: ... }`. */
  datatype LexicalRoot = LexicalRoot(root: Option<LexicalNode>)

  /** `extractText`: depth-first flattening of one node. */
  function ExtractText(node: LexicalNode): string
    decreases node, 1
  {
    if node.nodeType == Some("text") then OrString(node.text, "")
    else if node.nodeType == Some("mention") then OrString(node.mentionName, OrString(node.text, ""))
    else
      match node.children
      case NoChildren => ""
      case Children(children) =>
        var childText := ExtractAll(children);
        if node.nodeType == Some("paragraph") then childText + "\n" else childText
  }

  /** `children.map(extractText).join('')` */
  function ExtractAll(nodes: seq<LexicalNode>): string
    decreases nodes, 0
  {
    if |nodes| == 0 then "" else ExtractText(nodes[0]) + ExtractAll(nodes[1..])
  }

  /**
   * `parseRichText`: the trimmed text of the root. When the JSON is malformed, is `null`, or has
   * no `root` (so that reading `root.type` throws), the input comes back unchanged.
   */
  function ParseRichText(decode: Records.Decoder<LexicalRoot>, richTextJson: string): (r: string)
    ensures decode(richTextJson).Value? && decode(richTextJson).value.root.Some? ==>
              r == Trim(ExtractText(decode(richTextJson).value.root.value))
    ensures !(decode(richTextJson).Value? && decode(richTextJson).value.root.Some?) ==> r == richTextJson
  {
    match decode(richTextJson)
    case Value(LexicalRoot(Some(root))) => Trim(ExtractText(root))
    case _ => richTextJson
  }

  /** A message carrying an optional `richText` field beside fields of any other shape `T`. */
  datatype WithRichText<T> = WithRichText(fields: T, richText: Option<string>, richTextParsed: Option<string>)

  /**
   * `parseMessageRichText`: the message untouched when `richText` is absent or empty, otherwise
   * the same fields plus `richTextParsed`.
   */
  function ParseMessageRichText<T>(decode: Records.Decoder<LexicalRoot>, message: WithRichText<T>): (r: WithRichText<T>)
    ensures message.richText.None? || message.richText == Some("") ==> r == message
    ensures message.richText.Some? && message.richText.value != "" ==>
              r.fields == message.fields && r.richText == message.richText
              && r.richTextParsed == Some(ParseRichText(decode, message.richText.value))
  {
    if message.richText.None? || message.richText.value == "" then message
    else message.(richTextParsed := Some(ParseRichText(decode, message.richText.value)))
  }

  // ---------------------------------------------------------------------------------------
  // Properties of the flattening

  /** A 'text' node yields its text (or '') whatever its children. */
  lemma TextNodeOutput(text: Option<string>, children: Children, mention: Option<string>)
    ensures ExtractText(LexicalNode(Some("text"), text, children, mention)) == text.GetOr("")
  {
  }

  /** A 'mention' node yields its mentionName, else its text, else ''. */
  lemma MentionNodeOutput(text: Option<string>, children: Children, mention: Option<string>)
    ensures var out := ExtractText(LexicalNode(Some("mention"), text, children, mention));
            (mention.Some? && mention.value != "" ==> out == mention.value)
            && ((mention.None? || mention.value == "") ==> out == text.GetOr(""))
  {
  }

  /** The output of a node sequence is the concatenation of the nodes' outputs, all of them in order. */
  lemma {:induction false} ExtractAllAppend(xs: seq<LexicalNode>, ys: seq<LexicalNode>)
    ensures ExtractAll(xs + ys) == ExtractAll(xs) + ExtractAll(ys)
  {
    if |xs| > 0 {
      assert (xs + ys)[1..] == xs[1..] + ys;
      ExtractAllAppend(xs[1..], ys);
    } else {
      assert xs + ys == ys;
    }
  }

  /**
   * Any other node with children yields its children's outputs concatenated, plus '\n' when it
   * is a paragraph; a childless node of any other type yields ''.
   */
  lemma ContainerNodeOutput(node: LexicalNode)
    requires node.nodeType != Some("text") && node.nodeType != Some("mention")
    ensures node.children.NoChildren? ==> ExtractText(node) == ""
    ensures node.children.Children? && node.nodeType == Some("paragraph") ==>
              ExtractText(node) == ExtractAll(node.children.nodes) + "\n"
    ensures node.children.Children? && node.nodeType != Some("paragraph") ==>
              ExtractText(node) == ExtractAll(node.children.nodes)
  {
  }

  /** The number of occurrences of `c` in `s`. */
  function Occurrences(s: string, c: char): nat
  {
    if |s| == 0 then 0 else (if s[0] == c then 1 else 0) + Occurrences(s[1..], c)
  }

  lemma {:induction false} OccurrencesAppend(a: string, b: string, c: char)
    ensures Occurrences(a + b, c) == Occurrences(a, c) + Occurrences(b, c)
  {
    if |a| > 0 {
      assert (a + b)[1..] == a[1..] + b;
      OccurrencesAppend(a[1..], b, c);
    } else {
      assert a + b == b;
    }
  }

  /** No string a text or mention node could contribute holds a newline. */
  predicate NoNewlines(node: LexicalNode)
    decreases node, 1
  {
    '\n' !in node.text.GetOr("") && '\n' !in node.mentionName.GetOr("")
    && (node.children.Children? ==> AllNoNewlines(node.children.nodes))
  }

  predicate AllNoNewlines(nodes: seq<LexicalNode>)
    decreases nodes, 0
  {
    |nodes| == 0 || (NoNewlines(nodes[0]) && AllNoNewlines(nodes[1..]))
  }

  /** The paragraphs whose text the flattening visits: those with children, outside text and mention nodes. */
  function Paragraphs(node: LexicalNode): nat
    decreases node, 1
  {
    if node.nodeType == Some("text") || node.nodeType == Some("mention") then 0
    else
      match node.children
      case NoChildren => 0
      case Children(children) => (if node.nodeType == Some("paragraph") then 1 else 0) + AllParagraphs(children)
  }

  function AllParagraphs(nodes: seq<LexicalNode>): nat
    decreases nodes, 0
  {
    if |nodes| == 0 then 0 else Paragraphs(nodes[0]) + AllParagraphs(nodes[1..])
  }

  /** Paragraph breaks are preserved: the flattened text has one newline per visited paragraph. */
  lemma {:induction false} NewlinePerParagraph(node: LexicalNode)
    requires NoNewlines(node)
    ensures Occurrences(ExtractText(node), '\n') == Paragraphs(node)
    decreases node, 1
  {
    if node.nodeType != Some("text") && node.nodeType != Some("mention") && node.children.Children? {
      var children := node.children.nodes;
      NewlinesPerParagraphAll(children);
      if node.nodeType == Some("paragraph") {
        OccurrencesAppend(ExtractAll(children), "\n", '\n');
      }
    } else if node.nodeType == Some("mention") {
      assert ExtractText(node) == node.mentionName.GetOr("") || ExtractText(node) == node.text.GetOr("")
          || ExtractText(node) == "";
      OccurrencesAbsent(node.mentionName.GetOr(""), '\n');
      OccurrencesAbsent(node.text.GetOr(""), '\n');
    } else {
      OccurrencesAbsent(node.text.GetOr(""), '\n');
    }
  }

  lemma {:induction false} NewlinesPerParagraphAll(nodes: seq<LexicalNode>)
    requires AllNoNewlines(nodes)
    ensures Occurrences(ExtractAll(nodes), '\n') == AllParagraphs(nodes)
    decreases nodes, 0
  {
    if |nodes| > 0 {
      NewlinePerParagraph(nodes[0]);
      NewlinesPerParagraphAll(nodes[1..]);
      OccurrencesAppend(ExtractText(nodes[0]), ExtractAll(nodes[1..]), '\n');
    }
  }

  lemma {:induction false} OccurrencesAbsent(s: string, c: char)
    requires c !in s
    ensures Occurrences(s, c) == 0
  {
    if |s| > 0 {
      OccurrencesAbsent(s[1..], c);
    }
  }

  /** root → paragraph → text "Hello" flattens to "Hello": the paragraph's newline is trimmed. */
  lemma HelloExample(decode: Records.Decoder<LexicalRoot>, json: string)
    requires decode(json) == Records.Value(LexicalRoot(Some(
      LexicalNode(Some("root"), None, Children([
        LexicalNode(Some("paragraph"), None, Children([
          LexicalNode(Some("text"), Some("Hello"), NoChildren, None)]), None)]), None))))
    ensures ParseRichText(decode, json) == "Hello"
  {
    var text := LexicalNode(Some("text"), Some("Hello"), NoChildren, None);
    var para := LexicalNode(Some("paragraph"), None, Children([text]), None);
    var root := LexicalNode(Some("root"), None, Children([para]), None);
    assert ExtractAll([text]) == "Hello";
    assert ExtractText(para) == "Hello\n";
    assert ExtractText(root) == "Hello\n";
    TrimHello();
  }

  lemma TrimHello()
    ensures Trim("Hello\n") == "Hello"
  {
    var s := "Hello\n";
    assert s[0] == 'H' && !IsSpace(s[0]);
    assert TrimStart(s) == s;
    assert s[5] == '\n' && IsSpace(s[5]);
    assert s[..5] == "Hello";
    assert TrimEnd(s) == TrimEnd("Hello");
    assert "Hello"[4] == 'o' && !IsSpace("Hello"[4]);
    assert TrimEnd("Hello") == "Hello";
  }
}
