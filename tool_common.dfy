/** What the per-record tools of src/tools share: the error they throw and the row pages they read. */
module ToolCommon {
  import opened Wrappers
  import opened Text
  import opened Records
  import opened Scans

  /** The length of the text previews of the listings. */
  const PreviewLength: nat := 200

  /** The rows a statistics query samples. */
  const SampleLimit: nat := 100

  /** `new Error(`${kind} ${id} not found in conversation ${conversationId}`)` */
  function NotFound(kind: string, id: string, conversationId: string): (e: Error)
    ensures e.Thrown? && StartsWith(e.message, kind + " " + id)
    ensures e.message[|kind + " " + id|..] == " not found in conversation " + conversationId
  {
    Thrown(kind + " " + id + " not found in conversation " + conversationId)
  }

  /** The pattern of the rows of one conversation in a two-id family: `${prefix}${conversationId}:%`. */
  function OwnedPrefix(prefix: string, conversationId: string): string
  {
    prefix + conversationId + ":"
  }

  /** `WHERE key LIKE ? LIMIT ?`: the first `limit` rows of the family, all of them when it is negative. */
  function FirstRows(store: Store, prefix: string, limit: int): (rows: seq<Row>)
    ensures var all := ScanPrefix(store, prefix);
      |rows| == (if 0 <= limit < |all| then limit else |all|) && rows == all[..|rows|]
  {
    SqlPage(ScanPrefix(store, prefix), limit, 0)
  }

  /** Narrowing the pattern never finds more rows: a conversation's rows are among its family's. */
  lemma {:induction false} NarrowerScan(store: Store, prefix: string, more: string)
    ensures |ScanPrefix(store, prefix + more)| <= |ScanPrefix(store, prefix)|
  {
    if |store| > 0 {
      NarrowerScan(store[1..], prefix, more);
      if StartsWith(store[0].key, prefix + more) {
        assert store[0].key[..|prefix|] == (prefix + more)[..|prefix|] == prefix;
      }
    }
  }
}
