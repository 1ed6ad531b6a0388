/**
 * The rules the conversation queries share across src/tools and src/lib: free-text matching and
 * excerpts, the advanced-search filter chain and comparator, and the list sort-key mapping.
 */
module QueryRules {
  import opened Wrappers
  import opened Text
  import opened Records
  import opened Summaries
  import opened Sorting
  import opened Scans

  // ----- Free-text search -----

  const ExcerptLength: nat := 200
  const MaxMatches: nat := 3

  /** `text.substring(0, 200) + (text.length > 200 ? '...' : '')` */
  function Excerpt(text: string): (r: string)
    ensures |text| <= ExcerptLength ==> r == text
    ensures |text| > ExcerptLength ==> r == text[..ExcerptLength] + "..." && |r| == ExcerptLength + 3
  {
    Take(text, ExcerptLength) + (if |text| > ExcerptLength then "..." else "")
  }

  /** One matching message: its role, its excerpt and its position in the summary's messages. */
  datatype Match = Match(role: Role, text: string, index: nat)

  /** `msg.text.toLowerCase().includes(lowerQuery)` */
  predicate Hit(text: string, lowerQuery: string)
  {
    Contains(ToLower(text), lowerQuery)
  }

  /** Every message whose lower-cased text contains the query, in message order. */
  function Matches(messages: seq<MessageInfo>, lowerQuery: string): (r: seq<Match>)
    ensures forall j :: 0 <= j < |r| ==> r[j].index < |messages|
  {
    if |messages| == 0 then []
    else
      var k := |messages| - 1;
      Matches(messages[..k], lowerQuery)
        + (if Hit(messages[k].text, lowerQuery) then [Match(messages[k].role, Excerpt(messages[k].text), k)] else [])
  }

  /** `m` reports the message at its index: a hit, with that message's role and excerpt. */
  predicate Describes(messages: seq<MessageInfo>, lowerQuery: string, m: Match)
  {
    m.index < |messages|
    && Hit(messages[m.index].text, lowerQuery)
    && m.text == Excerpt(messages[m.index].text)
    && m.role == messages[m.index].role
  }

  /** Every match reports the message at its index, and positions increase. */
  lemma {:induction false} MatchesSound(messages: seq<MessageInfo>, lowerQuery: string)
    ensures forall j :: 0 <= j < |Matches(messages, lowerQuery)| ==> Describes(messages, lowerQuery, Matches(messages, lowerQuery)[j])
    ensures forall i, j :: 0 <= i < j < |Matches(messages, lowerQuery)| ==>
      Matches(messages, lowerQuery)[i].index < Matches(messages, lowerQuery)[j].index
  {
    if |messages| > 0 {
      var k := |messages| - 1;
      var init := messages[..k];
      MatchesSound(init, lowerQuery);
      var r := Matches(messages, lowerQuery);
      var before := Matches(init, lowerQuery);
      assert r[..|before|] == before;
      forall j | 0 <= j < |r|
        ensures Describes(messages, lowerQuery, r[j])
        ensures j < |before| ==> r[j].index < k
      {
        if j < |before| {
          assert r[j] == before[j];
          assert Describes(init, lowerQuery, before[j]);
          assert init[r[j].index] == messages[r[j].index];
        } else {
          assert r[j].index == k;
        }
      }
    }
  }

  /** Every message that contains the query is matched. */
  lemma {:induction false} MatchesComplete(messages: seq<MessageInfo>, lowerQuery: string, k: nat)
    requires k < |messages| && Hit(messages[k].text, lowerQuery)
    ensures exists j :: 0 <= j < |Matches(messages, lowerQuery)| && Matches(messages, lowerQuery)[j].index == k
  {
    var n := |messages| - 1;
    var r := Matches(messages, lowerQuery);
    if k < n {
      var init := messages[..n];
      assert init[k] == messages[k];
      MatchesComplete(init, lowerQuery, k);
      var before := Matches(init, lowerQuery);
      var j :| 0 <= j < |before| && before[j].index == k;
      assert r[j] == before[j];
    } else {
      assert r[|r| - 1].index == k;
    }
  }

  /** `matches.slice(0, 3)` */
  function TopMatches(messages: seq<MessageInfo>, lowerQuery: string): (r: seq<Match>)
    ensures |r| <= MaxMatches && |r| <= |Matches(messages, lowerQuery)|
    ensures r == Matches(messages, lowerQuery)[..|r|]
    ensures |r| == 0 <==> |Matches(messages, lowerQuery)| == 0
  {
    var all := Matches(messages, lowerQuery);
    if |all| <= MaxMatches then all else all[..MaxMatches]
  }

  /** The lower-cased query is all that matters: queries equal up to case find the same matches. */
  lemma CaseInsensitive(messages: seq<MessageInfo>, query1: string, query2: string)
    requires ToLower(query1) == ToLower(query2)
    ensures TopMatches(messages, ToLower(query1)) == TopMatches(messages, ToLower(query2))
  {
  }

  /** 'THE' and 'the' are the same query. */
  lemma UpperAndLowerQuery()
    ensures ToLower("THE") == ToLower("the") == "the"
  {
  }

  /** A result of the free-text search. `id` is the conversation id the generation reports. */
  datatype SearchResult = SearchResult(
    id: Option<string>,
    messageCount: nat,
    preview: string,
    status: string,
    createdAt: Option<int>,
    updatedAt: Option<int>,
    matches: seq<Match>)

  /** The result for a record and its summary, when at least one message matches. */
  function SearchHit(id: Option<string>, conv: Conversation, s: Summary, lowerQuery: string): (r: seq<SearchResult>)
    ensures |r| <= 1
    ensures |r| == 1 <==> |Matches(s.messages, lowerQuery)| > 0
    ensures |r| == 1 ==> 1 <= |r[0].matches| <= MaxMatches && r[0].id == id
  {
    var matches := TopMatches(s.messages, lowerQuery);
    if |matches| > 0 then
      [SearchResult(id, s.messageCount, Preview(s.messages), OrString(conv.status, "completed"),
                    conv.createdAt, OrTime(conv.lastUpdatedAt, conv.createdAt), matches)]
    else []
  }

  // ----- Advanced search -----

  /** The options of the advanced search; each `None` is an omitted option. */
  datatype AdvancedOptions = AdvancedOptions(
    dateFrom: Option<string>,
    dateTo: Option<string>,
    minMessages: Option<int>,
    maxMessages: Option<int>,
    status: Option<string>,
    sortBy: Option<string>,
    sortOrder: Option<string>,
    limit: Option<int>)

  function StatusOption(o: AdvancedOptions): string { o.status.GetOr("all") }
  function SortByOption(o: AdvancedOptions): string { o.sortBy.GetOr("date") }
  function SortOrderOption(o: AdvancedOptions): string { o.sortOrder.GetOr("desc") }
  function LimitOption(o: AdvancedOptions): int { o.limit.GetOr(20) }

  /** The defaults: every status, by date, descending, 20 results. */
  lemma AdvancedDefaults()
    ensures var o := AdvancedOptions(None, None, None, None, None, None, None, None);
      StatusOption(o) == "all" && SortByOption(o) == "date" && SortOrderOption(o) == "desc" && LimitOption(o) == 20
  {
  }

  /** `new Date(text).getTime()`: the instant a date text denotes, `None` for an invalid date. */
  type DateParser = string -> Option<int>

  /** The largest distance from the epoch a JavaScript Date can hold, in milliseconds. */
  const MaxTime: int := 8_640_000_000_000_000

  /** `new Date(timestamp)`: invalid for `undefined` and beyond the representable range. */
  function AsDate(t: Option<int>): (d: Option<int>)
    ensures d.Some? ==> d == t
  {
    if t.Some? && -MaxTime <= t.value <= MaxTime then t else None
  }

  /** `x < y` on Dates: false as soon as either is invalid. */
  predicate Before(x: Option<int>, y: Option<int>)
  {
    x.Some? && y.Some? && x.value < y.value
  }

  /** A numeric option that is given and non-zero. */
  predicate Bound(n: Option<int>)
  {
    n.Some? && n.value != 0
  }

  /** An entry of the advanced search. */
  datatype AdvancedEntry = AdvancedEntry(
    composerId: Option<string>,
    messageCount: nat,
    lastMessageDate: Option<int>,
    status: string,
    preview: string)

  function EntryOf(composerId: Option<string>, s: Summary): AdvancedEntry
  {
    AdvancedEntry(composerId, s.messageCount, s.updatedAt, s.status, s.preview)
  }

  /** The chain of `continue` filters, applied to the entry a summary gives. */
  predicate Passes(o: AdvancedOptions, parseDate: DateParser, s: AdvancedEntry)
  {
    var last := AsDate(s.lastMessageDate);
    !(Truthy(o.dateFrom) && Before(last, parseDate(o.dateFrom.value)))
    && !(Truthy(o.dateTo) && Before(parseDate(o.dateTo.value), last))
    && !(Bound(o.minMessages) && s.messageCount < o.minMessages.value)
    && !(Bound(o.maxMessages) && s.messageCount > o.maxMessages.value)
    && (StatusOption(o) == "all" || s.status == StatusOption(o))
  }

  /**
   * The filters in plain terms: the bounds are inclusive and act only when given (a date that
   * cannot be parsed, or a summary without a valid date, never excludes); the status must match
   * unless it is 'all'.
   */
  lemma PassesMeaning(o: AdvancedOptions, parseDate: DateParser, s: AdvancedEntry)
    ensures Passes(o, parseDate, s) <==>
      (var last := AsDate(s.lastMessageDate);
       (Truthy(o.dateFrom) && last.Some? && parseDate(o.dateFrom.value).Some? ==> parseDate(o.dateFrom.value).value <= last.value)
       && (Truthy(o.dateTo) && last.Some? && parseDate(o.dateTo.value).Some? ==> last.value <= parseDate(o.dateTo.value).value)
       && (Bound(o.minMessages) ==> o.minMessages.value <= s.messageCount)
       && (Bound(o.maxMessages) ==> s.messageCount <= o.maxMessages.value)
       && (StatusOption(o) != "all" ==> s.status == StatusOption(o)))
    ensures AsDate(s.lastMessageDate).None? ==>
      (Passes(o, parseDate, s) <==> Passes(o.(dateFrom := None, dateTo := None), parseDate, s))
  {
  }

  /** Counts [0, 3, 5, 8, 10, 12] under min 5 and max 10: exactly 5, 8 and 10 pass. */
  lemma CountBoundsExample(o: AdvancedOptions, parseDate: DateParser, s: AdvancedEntry)
    requires o.minMessages == Some(5) && o.maxMessages == Some(10)
    requires o.dateFrom.None? && o.dateTo.None? && o.status.None?
    requires s.messageCount in [0, 3, 5, 8, 10, 12]
    ensures Passes(o, parseDate, s) <==> s.messageCount in [5, 8, 10]
  {
  }

  /** The comparison before the direction is applied; NaN, from an invalid date, counts as 0. */
  function Comparison(sortBy: string, a: AdvancedEntry, b: AdvancedEntry): int
  {
    if sortBy == "date" then
      (var x := AsDate(a.lastMessageDate); var y := AsDate(b.lastMessageDate);
       if x.Some? && y.Some? then x.value - y.value else 0)
    else if sortBy == "message_count" then a.messageCount - b.messageCount
    else if sortBy == "status" then Compare(a.status, b.status)
    else 0
  }

  /** The comparator handed to `sort`: the comparison, negated for 'desc'. */
  function Comparator(sortBy: string, sortOrder: string): Comparator<AdvancedEntry>
  {
    (a, b) => if sortOrder == "desc" then -Comparison(sortBy, a, b) else Comparison(sortBy, a, b)
  }

  /** With valid dates when sorting by date, the comparator is a consistent order, so sorting sorts. */
  lemma ComparatorConsistent(sortBy: string, sortOrder: string, entries: seq<AdvancedEntry>)
    requires sortBy == "date" ==> forall k :: 0 <= k < |entries| ==> AsDate(entries[k].lastMessageDate).Some?
    ensures Consistent(Comparator(sortBy, sortOrder), entries)
  {
    var cmp := Comparator(sortBy, sortOrder);
    forall a, b, c | a in entries && b in entries && c in entries && cmp(a, b) <= 0 && cmp(b, c) <= 0
      ensures cmp(a, c) <= 0
    {
      if sortBy == "status" {
        CompareAntisymmetric(a.status, b.status);
        CompareAntisymmetric(b.status, c.status);
        CompareAntisymmetric(a.status, c.status);
        if sortOrder == "desc" {
          CompareTransitive(c.status, b.status, a.status);
        } else {
          CompareTransitive(a.status, b.status, c.status);
        }
      }
    }
    forall a, b | a in entries && b in entries && cmp(a, b) >= 0
      ensures cmp(b, a) <= 0
    {
      if sortBy == "status" {
        CompareAntisymmetric(a.status, b.status);
      }
    }
  }

  /** Sorted by message count with 'desc', counts never increase; with 'asc', they never decrease. */
  lemma SortedByCount(r: seq<AdvancedEntry>, sortOrder: string)
    requires Sorted(Comparator("message_count", sortOrder), r)
    ensures sortOrder == "desc" ==> forall i, j :: 0 <= i < j < |r| ==> r[i].messageCount >= r[j].messageCount
    ensures sortOrder != "desc" ==> forall i, j :: 0 <= i < j < |r| ==> r[i].messageCount <= r[j].messageCount
  {
    var cmp := Comparator("message_count", sortOrder);
    assert forall i, j :: 0 <= i < j < |r| ==> cmp(r[i], r[j]) <= 0;
  }

  /** The top by message count: with 'desc' nothing left out has more messages, with 'asc' nothing has fewer. */
  lemma TopByCount(r: seq<AdvancedEntry>, pool: multiset<AdvancedEntry>, sortOrder: string)
    requires TopOf(Comparator("message_count", sortOrder), r, pool)
    ensures sortOrder == "desc" ==>
      forall i, x :: 0 <= i < |r| && x in pool - multiset(r) ==> r[i].messageCount >= x.messageCount
    ensures sortOrder != "desc" ==>
      forall i, x :: 0 <= i < |r| && x in pool - multiset(r) ==> r[i].messageCount <= x.messageCount
  {
    var cmp := Comparator("message_count", sortOrder);
    assert forall i, x :: 0 <= i < |r| && x in pool - multiset(r) ==> cmp(r[i], x) <= 0;
  }

  /** Sorted by date with 'desc', valid dates never increase; with 'asc', they never decrease. */
  lemma SortedByDate(r: seq<AdvancedEntry>, sortOrder: string)
    requires Sorted(Comparator("date", sortOrder), r)
    requires forall k :: 0 <= k < |r| ==> AsDate(r[k].lastMessageDate).Some?
    ensures sortOrder == "desc" ==> forall i, j :: 0 <= i < j < |r| ==> AsDate(r[i].lastMessageDate).value >= AsDate(r[j].lastMessageDate).value
    ensures sortOrder != "desc" ==> forall i, j :: 0 <= i < j < |r| ==> AsDate(r[i].lastMessageDate).value <= AsDate(r[j].lastMessageDate).value
  {
    var cmp := Comparator("date", sortOrder);
    assert forall i, j :: 0 <= i < j < |r| ==> cmp(r[i], r[j]) <= 0;
  }

  /** The advanced-search answer. */
  datatype AdvancedResult = AdvancedResult(totalFound: nat, returned: int, conversations: seq<AdvancedEntry>)

  /** Sorting the entries that passed and cutting to the limit. */
  function Finish(o: AdvancedOptions, found: seq<AdvancedEntry>): (r: AdvancedResult)
    ensures r.totalFound == |found|
    ensures r.returned == if |found| <= LimitOption(o) then |found| else LimitOption(o)
    ensures 0 <= LimitOption(o) ==> |r.conversations| == r.returned
    ensures multiset(r.conversations) <= multiset(found)
    ensures 0 <= LimitOption(o) && |found| <= LimitOption(o) ==> multiset(r.conversations) == multiset(found)
    ensures 0 <= LimitOption(o) && Consistent(Comparator(SortByOption(o), SortOrderOption(o)), found) ==>
      Sorted(Comparator(SortByOption(o), SortOrderOption(o)), r.conversations)
    ensures Consistent(Comparator(SortByOption(o), SortOrderOption(o)), found) ==>
      TopOf(Comparator(SortByOption(o), SortOrderOption(o)), r.conversations, multiset(found))
  {
    var cmp := Comparator(SortByOption(o), SortOrderOption(o));
    var sorted := Sort(cmp, found);
    SortCorrect(cmp, found);
    var limit := LimitOption(o);
    var page := JsSlice(sorted, 0, limit);
    SliceSubMultiset(sorted, 0, limit);
    SlicePrefix(sorted, limit);
    SortedPrefixTop(cmp, sorted, SliceIndex(limit, |sorted|));
    assert |sorted| == |multiset(sorted)| == |multiset(found)| == |found|;
    assert 0 <= limit && |found| <= limit ==> page == sorted[0..|sorted|] == sorted;
    AdvancedResult(|found|, if |found| <= limit then |found| else limit, page)
  }

  // ----- Listing -----

  /** The key a listing is ordered by. */
  datatype SortKey = ByCreated | ByUpdated | ByRecentActivity

  /** An `ORDER BY` clause: the key and the upper-cased direction text. */
  datatype OrderBy = OrderBy(key: SortKey, direction: string)

  /** SQLite's execution of `ORDER BY` over the rows of the family: a rearrangement of them. */
  type RowOrder = f: (OrderBy, seq<Row>) -> seq<Row> | forall ob, rows :: multiset(f(ob, rows)) == multiset(rows)
    witness (ob: OrderBy, rows: seq<Row>) => rows

  /** The `switch` on sortBy: 'created', 'updated', and recent activity for anything else. */
  function OrderByFor(sortBy: string, sortOrder: string): (r: OrderBy)
    ensures r.key == ByCreated <==> sortBy == "created"
    ensures r.key == ByUpdated <==> sortBy == "updated"
    ensures r.direction == ToUpper(sortOrder)
  {
    var key := if sortBy == "created" then ByCreated else if sortBy == "updated" then ByUpdated else ByRecentActivity;
    OrderBy(key, ToUpper(sortOrder))
  }

  datatype ListOptions = ListOptions(limit: Option<int>, offset: Option<int>, sortBy: Option<string>, sortOrder: Option<string>)

  /** The order a listing asks for: recent activity, descending, unless told otherwise. */
  function ListOrder(o: ListOptions): OrderBy
  {
    OrderByFor(o.sortBy.GetOr("recent_activity"), o.sortOrder.GetOr("desc"))
  }

  lemma ListDefaults()
    ensures var o := ListOptions(None, None, None, None);
      o.limit.GetOr(50) == 50 && o.offset.GetOr(0) == 0 && ListOrder(o) == OrderBy(ByRecentActivity, "DESC")
  {
  }

  /** An entry of a listing. */
  datatype ListEntry = ListEntry(
    composerId: Option<string>,
    messageCount: nat,
    preview: string,
    status: string,
    createdAt: Option<int>,
    updatedAt: Option<int>)

  function ListEntryOf(conv: Conversation, s: Summary): ListEntry
  {
    ListEntry(conv.composerId, s.messageCount, s.preview, s.status, conv.createdAt, s.updatedAt)
  }

  datatype ListResult = ListResult(conversations: seq<ListEntry>, total: nat)
}
