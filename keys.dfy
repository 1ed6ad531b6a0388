/**
 * The key codec: the five literal key prefixes of the store, the key builders and the key
 * parsers (src/core/database/keys.ts).
 */
module Keys {
  import opened Wrappers
  import opened Text

  const ConversationPrefix: string := "composerData:"
  const MessagePrefix: string := "bubbleId:"
  const SnapshotPrefix: string := "checkpointId:"
  const DiffPrefix: string := "codeBlockDiff:"
  const ContextPrefix: string := "messageRequestContext:"

  /** The two identifiers of a message, snapshot, diff or context key. */
  datatype SubKey = SubKey(conversationId: string, localId: string)

  /** The text of `key` after `prefix`, when `key` starts with it. */
  function StripPrefix(key: string, prefix: string): (rest: Option<string>)
    ensures rest.Some? <==> StartsWith(key, prefix)
    ensures rest.Some? ==> key == prefix + rest.value
  {
    if StartsWith(key, prefix) then Some(key[|prefix|..]) else None
  }

  function MakeConversationKey(conversationId: string): (key: string)
    ensures StartsWith(key, ConversationPrefix)
    ensures key[|ConversationPrefix|..] == conversationId
  {
    ConversationPrefix + conversationId
  }

  /** The builders of the four two-id families all put `ownerId:localId` after the prefix. */
  function MakeSubKey(prefix: string, conversationId: string, localId: string): (key: string)
    ensures StartsWith(key, prefix)
    ensures key[|prefix|..] == Join([conversationId, localId], ":")
  {
    prefix + conversationId + ":" + localId
  }

  function MakeMessageKey(conversationId: string, messageId: string): (key: string)
    ensures StartsWith(key, MessagePrefix)
    ensures key[|MessagePrefix|..] == Join([conversationId, messageId], ":")
  {
    MakeSubKey(MessagePrefix, conversationId, messageId)
  }

  function MakeSnapshotKey(conversationId: string, snapshotId: string): (key: string)
    ensures StartsWith(key, SnapshotPrefix)
    ensures key[|SnapshotPrefix|..] == Join([conversationId, snapshotId], ":")
  {
    MakeSubKey(SnapshotPrefix, conversationId, snapshotId)
  }

  function MakeDiffKey(conversationId: string, diffId: string): (key: string)
    ensures StartsWith(key, DiffPrefix)
    ensures key[|DiffPrefix|..] == Join([conversationId, diffId], ":")
  {
    MakeSubKey(DiffPrefix, conversationId, diffId)
  }

  function MakeContextKey(conversationId: string, contextId: string): (key: string)
    ensures StartsWith(key, ContextPrefix)
    ensures key[|ContextPrefix|..] == Join([conversationId, contextId], ":")
  {
    MakeSubKey(ContextPrefix, conversationId, contextId)
  }

  /** The conversation id of a conversation key: everything after the prefix. */
  function ParseConversationKey(key: string): (r: Option<string>)
    ensures r.Some? <==> StartsWith(key, ConversationPrefix)
    ensures r.Some? ==> key == ConversationPrefix + r.value
  {
    StripPrefix(key, ConversationPrefix)
  }

  /** `split(':')` of the rest must give exactly two pieces. */
  function ParseMessageKey(key: string): (r: Option<SubKey>)
    ensures !StartsWith(key, MessagePrefix) ==> r == None
    ensures r.Some? ==> ':' !in r.value.conversationId && ':' !in r.value.localId
  {
    match StripPrefix(key, MessagePrefix)
    case None => None
    case Some(rest) =>
      var parts := Split(rest, ':');
      if |parts| != 2 then None else Some(SubKey(parts[0], parts[1]))
  }

  /** The shared body of the snapshot, diff and context parsers: split at the first colon only. */
  function ParseAtFirstColon(key: string, prefix: string): (r: Option<SubKey>)
    ensures r.Some? <==> StartsWith(key, prefix) && ':' in key[|prefix|..]
    ensures r.Some? ==> ':' !in r.value.conversationId && key == MakeSubKey(prefix, r.value.conversationId, r.value.localId)
  {
    match StripPrefix(key, prefix)
    case None => None
    case Some(rest) =>
      var firstColon := IndexOf(rest, ':');
      if firstColon == -1 then None
      else
        assert rest == rest[..firstColon] + ":" + rest[firstColon + 1..];
        Some(SubKey(rest[..firstColon], rest[firstColon + 1..]))
  }

  /** The snapshot parser accepts exactly the snapshot keys with a colon after the prefix. */
  function ParseSnapshotKey(key: string): (r: Option<SubKey>)
    ensures r.Some? <==> StartsWith(key, SnapshotPrefix) && ':' in key[|SnapshotPrefix|..]
    ensures r.Some? ==> key == MakeSnapshotKey(r.value.conversationId, r.value.localId)
  {
    ParseAtFirstColon(key, SnapshotPrefix)
  }

  function ParseDiffKey(key: string): (r: Option<SubKey>)
    ensures r.Some? <==> StartsWith(key, DiffPrefix) && ':' in key[|DiffPrefix|..]
    ensures r.Some? ==> key == MakeDiffKey(r.value.conversationId, r.value.localId)
  {
    ParseAtFirstColon(key, DiffPrefix)
  }

  function ParseContextKey(key: string): (r: Option<SubKey>)
    ensures r.Some? <==> StartsWith(key, ContextPrefix) && ':' in key[|ContextPrefix|..]
    ensures r.Some? ==> key == MakeContextKey(r.value.conversationId, r.value.localId)
  {
    ParseAtFirstColon(key, ContextPrefix)
  }

  // ---------------------------------------------------------------------------------------
  // Round trips

  /** A conversation key gives back its id, colons included, and is the only key that does. */
  lemma ConversationKeyRoundTrip(conversationId: string, key: string)
    ensures ParseConversationKey(MakeConversationKey(conversationId)) == Some(conversationId)
    ensures ParseConversationKey(key) == Some(conversationId) <==> key == MakeConversationKey(conversationId)
  {
    var k := MakeConversationKey(conversationId);
    assert k[..|ConversationPrefix|] == ConversationPrefix;
  }

  lemma SubKeyText(prefix: string, conversationId: string, localId: string)
    ensures MakeSubKey(prefix, conversationId, localId)[|prefix|..] == conversationId + [':'] + localId
    ensures StripPrefix(MakeSubKey(prefix, conversationId, localId), prefix) == Some(conversationId + [':'] + localId)
  {
    var k := MakeSubKey(prefix, conversationId, localId);
    assert k == prefix + (conversationId + [':'] + localId);
    assert k[..|prefix|] == prefix;
  }

  /** The split of `a:b` has two pieces exactly when neither `a` nor `b` contains ':'. */
  lemma SplitPair(a: string, b: string)
    ensures |Split(a + [':'] + b, ':')| == 2 <==> ':' !in a && ':' !in b
    ensures ':' !in a && ':' !in b ==> Split(a + [':'] + b, ':') == [a, b]
  {
    if ':' !in a {
      SplitConcat(a, ':', b);
      if ':' in b {
        SplitColonInB(b);
      }
    } else {
      SplitHasTwo(a, b);
    }
  }

  lemma SplitColonInB(b: string)
    requires ':' in b
    ensures |Split(b, ':')| >= 2
  {
  }

  lemma SplitHasTwo(a: string, b: string)
    requires ':' in a
    ensures |Split(a + [':'] + b, ':')| > 2
  {
    var rest := a + [':'] + b;
    var i := IndexOf(a, ':');
    assert IndexOf(rest, ':') == i by {
      assert rest[..i] == a[..i];
      assert rest[i] == ':';
    }
    var tail := rest[i + 1..];
    assert tail == a[i + 1..] + [':'] + b;
    assert tail[|a| - i - 1] == ':';
    assert ':' in tail;
    assert |Split(tail, ':')| >= 2;
  }

  /**
   * A message key parses back exactly when neither id contains ':', and then to its two ids.
   */
  lemma MessageKeyRoundTrip(conversationId: string, messageId: string)
    ensures ParseMessageKey(MakeMessageKey(conversationId, messageId)).Some?
            <==> ':' !in conversationId && ':' !in messageId
    ensures ':' !in conversationId && ':' !in messageId ==>
              ParseMessageKey(MakeMessageKey(conversationId, messageId)) == Some(SubKey(conversationId, messageId))
  {
    SubKeyText(MessagePrefix, conversationId, messageId);
    SplitPair(conversationId, messageId);
  }

  /** Every key the message parser accepts is the key built from the two ids it returns. */
  lemma MessageKeyParsedRebuilds(key: string)
    ensures ParseMessageKey(key).Some? ==>
              var p := ParseMessageKey(key).value;
              key == MakeMessageKey(p.conversationId, p.localId) && ':' !in p.conversationId && ':' !in p.localId
  {
    if ParseMessageKey(key).Some? {
      var r := StripPrefix(key, MessagePrefix).value;
      var parts := Split(r, ':');
      JoinSplit(r, ':');
      assert Join(parts, ":") == parts[0] + ":" + parts[1];
    }
  }

  /**
   * The snapshot, diff and context keys split at the first colon only, so they round-trip any
   * local id (colons allowed) when the conversation id has no ':'; and every key the parser
   * accepts is rebuilt from what it returns.
   */
  lemma AtFirstColonRoundTrip(prefix: string, conversationId: string, localId: string, key: string)
    ensures ':' !in conversationId ==>
              ParseAtFirstColon(MakeSubKey(prefix, conversationId, localId), prefix) == Some(SubKey(conversationId, localId))
    ensures ParseAtFirstColon(key, prefix).Some? ==>
              var p := ParseAtFirstColon(key, prefix).value;
              key == MakeSubKey(prefix, p.conversationId, p.localId) && ':' !in p.conversationId
  {
    SubKeyText(prefix, conversationId, localId);
    if ':' !in conversationId {
      IndexOfConcat(conversationId, ':', localId);
      var rest := conversationId + [':'] + localId;
      assert rest[..|conversationId|] == conversationId;
      assert rest[|conversationId| + 1..] == localId;
    }
    if ParseAtFirstColon(key, prefix).Some? {
      var r := StripPrefix(key, prefix).value;
      var i := IndexOf(r, ':');
      assert r == r[..i] + ":" + r[i + 1..];
    }
  }

  lemma SnapshotKeyRoundTrip(conversationId: string, snapshotId: string, key: string)
    ensures ':' !in conversationId ==>
              ParseSnapshotKey(MakeSnapshotKey(conversationId, snapshotId)) == Some(SubKey(conversationId, snapshotId))
    ensures ParseSnapshotKey(key).Some? ==>
              key == MakeSnapshotKey(ParseSnapshotKey(key).value.conversationId, ParseSnapshotKey(key).value.localId)
  {
    AtFirstColonRoundTrip(SnapshotPrefix, conversationId, snapshotId, key);
  }

  lemma DiffKeyRoundTrip(conversationId: string, diffId: string, key: string)
    ensures ':' !in conversationId ==>
              ParseDiffKey(MakeDiffKey(conversationId, diffId)) == Some(SubKey(conversationId, diffId))
    ensures ParseDiffKey(key).Some? ==>
              key == MakeDiffKey(ParseDiffKey(key).value.conversationId, ParseDiffKey(key).value.localId)
  {
    AtFirstColonRoundTrip(DiffPrefix, conversationId, diffId, key);
  }

  lemma ContextKeyRoundTrip(conversationId: string, contextId: string, key: string)
    ensures ':' !in conversationId ==>
              ParseContextKey(MakeContextKey(conversationId, contextId)) == Some(SubKey(conversationId, contextId))
    ensures ParseContextKey(key).Some? ==>
              key == MakeContextKey(ParseContextKey(key).value.conversationId, ParseContextKey(key).value.localId)
  {
    AtFirstColonRoundTrip(ContextPrefix, conversationId, contextId, key);
  }

  /** With the prefix present, the three first-colon parsers fail exactly when no colon follows it. */
  lemma AtFirstColonNoColon(key: string)
    ensures StartsWith(key, SnapshotPrefix) ==>
              (ParseSnapshotKey(key) == None <==> ':' !in key[|SnapshotPrefix|..])
    ensures StartsWith(key, DiffPrefix) ==>
              (ParseDiffKey(key) == None <==> ':' !in key[|DiffPrefix|..])
    ensures StartsWith(key, ContextPrefix) ==>
              (ParseContextKey(key) == None <==> ':' !in key[|ContextPrefix|..])
  {
  }

  // ---------------------------------------------------------------------------------------
  // Prefix disjointness

  function Accepts(b: bool): nat { if b then 1 else 0 }

  lemma LeadingChars(key: string, p: string)
    requires StartsWith(key, p) && |p| >= 3
    ensures key[0] == p[0] && key[1] == p[1] && key[2] == p[2]
  {
    assert key[..|p|] == p;
  }

  lemma PrefixesExclusive(key: string)
    ensures Accepts(StartsWith(key, ConversationPrefix)) + Accepts(StartsWith(key, MessagePrefix))
            + Accepts(StartsWith(key, SnapshotPrefix)) + Accepts(StartsWith(key, DiffPrefix))
            + Accepts(StartsWith(key, ContextPrefix)) <= 1
  {
    if StartsWith(key, ConversationPrefix) { LeadingChars(key, ConversationPrefix); }
    if StartsWith(key, MessagePrefix) { LeadingChars(key, MessagePrefix); }
    if StartsWith(key, SnapshotPrefix) { LeadingChars(key, SnapshotPrefix); }
    if StartsWith(key, DiffPrefix) { LeadingChars(key, DiffPrefix); }
    if StartsWith(key, ContextPrefix) { LeadingChars(key, ContextPrefix); }
  }

  /**
   * Every parser rejects a key lacking its prefix, and since no prefix is a prefix of another,
   * at most one parser accepts any given key.
   */
  lemma AtMostOneParserAccepts(key: string)
    ensures ParseConversationKey(key).Some? ==> StartsWith(key, ConversationPrefix)
    ensures ParseMessageKey(key).Some? ==> StartsWith(key, MessagePrefix)
    ensures ParseSnapshotKey(key).Some? ==> StartsWith(key, SnapshotPrefix)
    ensures ParseDiffKey(key).Some? ==> StartsWith(key, DiffPrefix)
    ensures ParseContextKey(key).Some? ==> StartsWith(key, ContextPrefix)
    ensures Accepts(ParseConversationKey(key).Some?) + Accepts(ParseMessageKey(key).Some?)
            + Accepts(ParseSnapshotKey(key).Some?) + Accepts(ParseDiffKey(key).Some?)
            + Accepts(ParseContextKey(key).Some?) <= 1
  {
    PrefixesExclusive(key);
  }

  // ---------------------------------------------------------------------------------------
  // Reading ids back with `key.split(':')`

  /** A family prefix: a colon-free name followed by one colon. */
  predicate FamilyPrefix(prefix: string)
  {
    |prefix| > 0 && prefix[|prefix| - 1] == ':' && ':' !in prefix[..|prefix| - 1]
  }

  lemma FamilyPrefixes()
    ensures FamilyPrefix(MessagePrefix) && FamilyPrefix(SnapshotPrefix) && FamilyPrefix(DiffPrefix)
    ensures FamilyPrefix(ContextPrefix) && FamilyPrefix(ConversationPrefix)
  {
  }

  /** `split(':')` of a two-id key: the family name, the owner id, then the pieces of the local id. */
  lemma SubKeySplit(prefix: string, conversationId: string, localId: string)
    requires FamilyPrefix(prefix) && ':' !in conversationId
    ensures Split(MakeSubKey(prefix, conversationId, localId), ':') == [prefix[..|prefix| - 1], conversationId] + Split(localId, ':')
  {
    var name := prefix[..|prefix| - 1];
    var rest := conversationId + [':'] + localId;
    calc {
      MakeSubKey(prefix, conversationId, localId);
      prefix + conversationId + ":" + localId;
      { assert prefix == name + [':']; }
      name + [':'] + conversationId + [':'] + localId;
      name + [':'] + rest;
    }
    SplitConcat(name, ':', rest);
    SplitConcat(conversationId, ':', localId);
    assert [name] + ([conversationId] + Split(localId, ':')) == [name, conversationId] + Split(localId, ':');
  }

  /**
   * `key.split(':')[2]` gives the local id up to its first colon, the whole local id exactly
   * when it has none; `key.split(':').slice(2).join(':')` always gives the whole local id.
   */
  lemma LocalIdFromKey(prefix: string, conversationId: string, localId: string)
    requires FamilyPrefix(prefix) && ':' !in conversationId
    ensures At(Split(MakeSubKey(prefix, conversationId, localId), ':'), 2) == Some(Split(localId, ':')[0])
    ensures At(Split(MakeSubKey(prefix, conversationId, localId), ':'), 2) == Some(localId) <==> ':' !in localId
    ensures Join(Drop(Split(MakeSubKey(prefix, conversationId, localId), ':'), 2), ":") == localId
  {
    SubKeySplit(prefix, conversationId, localId);
    SplitFirst(localId, ':');
    var parts := Split(MakeSubKey(prefix, conversationId, localId), ':');
    assert Drop(parts, 2) == Split(localId, ':');
    JoinSplit(localId, ':');
  }
}
