/**
 * The bubble tools of src/tools/get-bubble.ts: getBubble, listBubbles and getBubbleStats. A
 * bubble is a message; `BUBBLE_ID` and `makeBubbleKey` are the message prefix and key builder.
 */
module BubbleTools {
  import opened Wrappers
  import opened Text
  import opened Records
  import opened Keys
  import opened Summaries
  import opened Scans
  import opened ToolCommon
  import opened MessageTools

  /**
   * getBubble: the parsed value under the bubble key. A missing, empty or 'null' value throws the
   * not-found error, malformed JSON throws `SyntaxError`, and the JSON `null` is returned as is.
   */
  function GetBubble(store: Store, json: Json, composerId: string, bubbleId: string): (r: Result<Option<Message>>)
    ensures var v := LookupValue(store, MakeMessageKey(composerId, bubbleId));
      (Absent(v) <==> r == Err(NotFound("Bubble", bubbleId, composerId)))
      && (!Absent(v) ==> (r == Err(SyntaxError) <==> json.message(v.value).Malformed?)
                         && (r == Ok(None) <==> json.message(v.value).JsonNull?))
  {
    var v := LookupValue(store, MakeMessageKey(composerId, bubbleId));
    if Absent(v) then Err(NotFound("Bubble", bubbleId, composerId))
    else
      match json.message(v.value)
      case Malformed => Err(SyntaxError)
      case JsonNull => Ok(None)
      case Value(m) => Ok(Some(m))
  }

  /**
   * getBubble finds a message exactly when the summariser's getBubbleData does, and the same
   * one; where getBubbleData gives nothing, getBubble throws or returns `null`.
   */
  lemma GetBubbleAgreesWithFetch(store: Store, json: Json, composerId: string, bubbleId: string, m: Message)
    ensures GetBubble(store, json, composerId, bubbleId) == Ok(Some(m)) <==> FetchBubble(store, json, Some(composerId), Some(bubbleId)) == Some(m)
  {
  }

  /**
   * What one row adds: the projection of `{ ...parsed, bubbleKey }`. The JSON `null` spreads to an
   * empty record and IS listed; only missing, empty, 'null' or malformed values are skipped.
   */
  function Step(json: Json, row: Row): (r: seq<MessageSummary>)
    ensures |r| <= 1
  {
    if Absent(row.value) then []
    else
      match json.message(row.value.value)
      case Malformed => []
      case JsonNull => [Project(EmptyMessage, ListedId(EmptyMessage, row.key))]
      case Value(m) => [Project(m, ListedId(m, row.key))]
  }

  function StepFn(json: Json): Row -> seq<MessageSummary>
  {
    row => Step(json, row)
  }

  datatype BubbleList = BubbleList(composerId: string, count: nat, bubbles: seq<MessageSummary>)

  /** listBubbles */
  method ListBubbles(store: Store, json: Json, composerId: string, limit: Option<int>) returns (r: BubbleList)
    ensures r.composerId == composerId
    ensures r.bubbles == Gather(ListedRows(store, composerId, limit), StepFn(json))
    ensures r.count == |r.bubbles|
  {
    var rows := ListedRows(store, composerId, limit);
    var bubbles: seq<MessageSummary> := [];
    var i := 0;
    while i < |rows|
      invariant 0 <= i <= |rows|
      invariant bubbles == Gather(rows[..i], StepFn(json))
    {
      assert rows[..i + 1][..i] == rows[..i];
      var row := rows[i];
      if !Absent(row.value) {
        match json.message(row.value.value) {
          case Malformed =>
          case JsonNull =>
            bubbles := bubbles + [Project(EmptyMessage, ListedId(EmptyMessage, row.key))];
          case Value(m) =>
            bubbles := bubbles + [Project(m, ListedId(m, row.key))];
        }
      }
      i := i + 1;
    }
    assert rows[..i] == rows;
    r := BubbleList(composerId, |bubbles|, bubbles);
  }

  /**
   * listBubbles and listMessages differ only on rows holding the JSON `null`: with none, they
   * list the same projections; a `null` row is listed here as an assistant message without text.
   */
  lemma BubblesAndMessages(store: Store, json: Json, composerId: string, limit: Option<int>)
    ensures var rows := ListedRows(store, composerId, limit);
      (forall k :: 0 <= k < |rows| && !Absent(rows[k].value) ==> !json.message(rows[k].value.value).JsonNull?) ==>
        Gather(rows, StepFn(json)) == Gather(rows, MessageTools.StepFn(json))
    ensures forall row: Row :: !Absent(row.value) && json.message(row.value.value).JsonNull? ==>
      Step(json, row) == [MessageSummary(At(Split(row.key, ':'), 2), Assistant, NoTextContent, false, false, false, None)]
  {
    var rows := ListedRows(store, composerId, limit);
    if forall k :: 0 <= k < |rows| && !Absent(rows[k].value) ==> !json.message(rows[k].value.value).JsonNull? {
      GatherCongruent(rows, StepFn(json), MessageTools.StepFn(json));
    }
  }

  datatype BubbleStats = BubbleStats(totalBubbles: nat, sampleSize: nat, sampleBreakdown: Breakdown)

  /** getBubbleStats: the message statistics, reported under the bubble names. */
  method GetBubbleStats(store: Store, json: Json) returns (r: BubbleStats)
    ensures r.totalBubbles == |ScanPrefix(store, MessagePrefix)|
    ensures r.sampleSize == |Sample(store)| <= SampleLimit
    ensures r.sampleBreakdown == BreakdownOf(json, Sample(store))
  {
    var s := GetMessageStats(store, json);
    r := BubbleStats(s.totalMessages, s.sampleSize, s.sampleBreakdown);
  }
}
