/**
 * The row loops every query runs, as folds over the rows a statement returns: a loop that pushes
 * what each row yields, one that stops at the first exception, and one that breaks once enough
 * results are collected. Also the SQL `LIMIT ? OFFSET ?` clause and JavaScript `slice`.
 */
module Scans {
  import opened Wrappers
  import opened Records

  /** `for (const row of rows) results.push(...step(row))` */
  function Gather<T>(rows: seq<Row>, step: Row -> seq<T>): seq<T>
  {
    if |rows| == 0 then []
    else Gather(rows[..|rows| - 1], step) + step(rows[|rows| - 1])
  }

  /** The number of rows satisfying `p`. */
  function Count(rows: seq<Row>, p: Row -> bool): (n: nat)
    ensures n <= |rows|
  {
    if |rows| == 0 then 0
    else Count(rows[..|rows| - 1], p) + (if p(rows[|rows| - 1]) then 1 else 0)
  }

  lemma {:induction false} GatherAppend<T>(xs: seq<Row>, ys: seq<Row>, step: Row -> seq<T>)
    ensures Gather(xs + ys, step) == Gather(xs, step) + Gather(ys, step)
    decreases |ys|
  {
    if |ys| == 0 {
      assert xs + ys == xs;
    } else {
      assert (xs + ys)[..|xs + ys| - 1] == xs + ys[..|ys| - 1];
      GatherAppend(xs, ys[..|ys| - 1], step);
    }
  }

  /** One more pass of the loop: the items so far, then what row `i` yields. */
  lemma GatherNext<T>(rows: seq<Row>, i: nat, step: Row -> seq<T>)
    requires i < |rows|
    ensures Gather(rows[..i + 1], step) == Gather(rows[..i], step) + step(rows[i])
  {
    assert rows[..i + 1][..i] == rows[..i];
  }

  /** One more pass of a counting loop: the count so far, plus one when row `i` satisfies `p`. */
  lemma CountNext(rows: seq<Row>, i: nat, p: Row -> bool)
    requires i < |rows|
    ensures Count(rows[..i + 1], p) == Count(rows[..i], p) + (if p(rows[i]) then 1 else 0)
  {
    assert rows[..i + 1][..i] == rows[..i];
  }

  /** When each row yields one item exactly when it satisfies `p`, there is one item per such row. */
  lemma {:induction false} GatherCount<T>(rows: seq<Row>, step: Row -> seq<T>, p: Row -> bool)
    requires forall k :: 0 <= k < |rows| ==> |step(rows[k])| == (if p(rows[k]) then 1 else 0)
    ensures |Gather(rows, step)| == Count(rows, p)
  {
    if |rows| > 0 {
      GatherCount(rows[..|rows| - 1], step, p);
    }
  }

  /** Every item a row yields is gathered. */
  lemma {:induction false} GatherHas<T>(rows: seq<Row>, step: Row -> seq<T>, k: nat, x: T)
    requires k < |rows| && x in step(rows[k])
    ensures x in Gather(rows, step)
  {
    var init := rows[..|rows| - 1];
    if k < |rows| - 1 {
      assert init[k] == rows[k];
      GatherHas(init, step, k, x);
    }
  }

  /** Every item gathered comes from some row. */
  lemma {:induction false} GatherFrom<T>(rows: seq<Row>, step: Row -> seq<T>, x: T)
    requires x in Gather(rows, step)
    ensures exists k :: 0 <= k < |rows| && x in step(rows[k])
  {
    var init := rows[..|rows| - 1];
    if x in Gather(init, step) {
      GatherFrom(init, step, x);
      var k :| 0 <= k < |init| && x in step(init[k]);
      assert rows[k] == init[k];
    } else {
      assert x in step(rows[|rows| - 1]);
    }
  }

  /** A loop adding at most one item per row gathers at most one item per row. */
  lemma {:induction false} GatherAtMostOne<T>(rows: seq<Row>, step: Row -> seq<T>)
    requires forall k :: 0 <= k < |rows| ==> |step(rows[k])| <= 1
    ensures |Gather(rows, step)| <= |rows|
  {
    if |rows| > 0 {
      assert forall k :: 0 <= k < |rows| - 1 ==> rows[..|rows| - 1][k] == rows[k];
      GatherAtMostOne(rows[..|rows| - 1], step);
    }
  }

  /** Two loops whose bodies agree on every row gather the same items. */
  lemma {:induction false} GatherCongruent<T>(rows: seq<Row>, f: Row -> seq<T>, g: Row -> seq<T>)
    requires forall k :: 0 <= k < |rows| ==> f(rows[k]) == g(rows[k])
    ensures Gather(rows, f) == Gather(rows, g)
  {
    if |rows| > 0 {
      assert forall k :: 0 <= k < |rows| - 1 ==> rows[..|rows| - 1][k] == rows[k];
      GatherCongruent(rows[..|rows| - 1], f, g);
    }
  }

  /** Counters of properties no row has together add up to at most the number of rows. */
  lemma {:induction false} CountDisjoint(rows: seq<Row>, p: Row -> bool, q: Row -> bool)
    requires forall k :: 0 <= k < |rows| ==> !(p(rows[k]) && q(rows[k]))
    ensures Count(rows, p) + Count(rows, q) <= |rows|
  {
    if |rows| > 0 {
      assert forall k :: 0 <= k < |rows| - 1 ==> rows[..|rows| - 1][k] == rows[k];
      CountDisjoint(rows[..|rows| - 1], p, q);
    }
  }

  /** A counter of a property that implies another is at most the other's counter. */
  lemma {:induction false} CountMonotone(rows: seq<Row>, p: Row -> bool, q: Row -> bool)
    requires forall k :: 0 <= k < |rows| ==> p(rows[k]) ==> q(rows[k])
    ensures Count(rows, p) <= Count(rows, q)
  {
    if |rows| > 0 {
      assert forall k :: 0 <= k < |rows| - 1 ==> rows[..|rows| - 1][k] == rows[k];
      CountMonotone(rows[..|rows| - 1], p, q);
    }
  }

  /** A loop whose body may throw: the items of every row, or the first row's exception. */
  function Collect<T>(rows: seq<Row>, step: Row -> Result<seq<T>>): Result<seq<T>>
  {
    if |rows| == 0 then Ok([])
    else
      match Collect(rows[..|rows| - 1], step)
      case Err(e) => Err(e)
      case Ok(before) =>
        match step(rows[|rows| - 1])
        case Err(e) => Err(e)
        case Ok(items) => Ok(before + items)
  }

  /** One more pass of the throwing loop: row `i` either throws or adds its items. */
  lemma CollectNext<T>(rows: seq<Row>, i: nat, step: Row -> Result<seq<T>>)
    requires i < |rows| && Collect(rows[..i], step).Ok?
    ensures step(rows[i]).Err? ==> Collect(rows[..i + 1], step) == Err(step(rows[i]).error)
    ensures step(rows[i]).Ok? ==> Collect(rows[..i + 1], step) == Ok(Collect(rows[..i], step).value + step(rows[i]).value)
  {
    assert rows[..i + 1][..i] == rows[..i];
  }

  /** Once a row has thrown, the whole loop throws that exception. */
  lemma {:induction false} CollectFailureSticks<T>(rows: seq<Row>, i: nat, step: Row -> Result<seq<T>>)
    requires i <= |rows| && Collect(rows[..i], step).Err?
    ensures Collect(rows, step) == Collect(rows[..i], step)
    decreases |rows| - i
  {
    if i < |rows| {
      assert rows[..i + 1][..i] == rows[..i];
      CollectFailureSticks(rows, i + 1, step);
    } else {
      assert rows[..i] == rows;
    }
  }

  /** A loop that throws nothing collects what the non-throwing loop gathers. */
  lemma {:induction false} CollectWithoutFailure<T>(rows: seq<Row>, step: Row -> Result<seq<T>>, plain: Row -> seq<T>)
    requires forall k :: 0 <= k < |rows| ==> step(rows[k]) == Ok(plain(rows[k]))
    ensures Collect(rows, step) == Ok(Gather(rows, plain))
  {
    if |rows| > 0 {
      CollectWithoutFailure(rows[..|rows| - 1], step, plain);
    }
  }

  /** Every item a throwing loop collects is an item of some row that did not throw. */
  lemma {:induction false} CollectFrom<T>(rows: seq<Row>, step: Row -> Result<seq<T>>, x: T)
    requires Collect(rows, step).Ok? && x in Collect(rows, step).value
    ensures exists k :: 0 <= k < |rows| && step(rows[k]).Ok? && x in step(rows[k]).value
  {
    if |rows| > 0 {
      var init := rows[..|rows| - 1];
      var last := rows[|rows| - 1];
      var before := Collect(init, step);
      assert before.Ok? && step(last).Ok?;
      assert Collect(rows, step).value == before.value + step(last).value;
      if x in before.value {
        CollectFrom(init, step, x);
        var k :| 0 <= k < |init| && step(init[k]).Ok? && x in step(init[k]).value;
        assert init[k] == rows[k];
      } else {
        assert step(rows[|rows| - 1]).Ok? && x in step(rows[|rows| - 1]).value;
      }
    }
  }

  /** Every item of a row that did not throw is collected by a loop that did not throw. */
  lemma {:induction false} CollectHas<T>(rows: seq<Row>, step: Row -> Result<seq<T>>, k: nat, x: T)
    requires Collect(rows, step).Ok? && k < |rows| && step(rows[k]).Ok? && x in step(rows[k]).value
    ensures x in Collect(rows, step).value
  {
    var init := rows[..|rows| - 1];
    if k < |rows| - 1 {
      assert init[k] == rows[k];
      CollectHas(init, step, k, x);
    }
  }

  /** A loop that did not throw, each row adding one item exactly when it has `p`, holds one item per such row. */
  lemma {:induction false} CollectCount<T>(rows: seq<Row>, step: Row -> Result<seq<T>>, p: Row -> bool)
    requires Collect(rows, step).Ok?
    requires forall k :: 0 <= k < |rows| && step(rows[k]).Ok? ==> |step(rows[k]).value| == (if p(rows[k]) then 1 else 0)
    ensures |Collect(rows, step).value| == Count(rows, p)
  {
    if |rows| > 0 {
      var init := rows[..|rows| - 1];
      assert forall k :: 0 <= k < |init| ==> init[k] == rows[k];
      CollectCount(init, step, p);
    }
  }

  /** The loop throws exactly when some row throws, and then it throws the first row's exception. */
  lemma {:induction false} CollectFails<T>(rows: seq<Row>, step: Row -> Result<seq<T>>)
    ensures Collect(rows, step).Err? <==> exists k :: 0 <= k < |rows| && step(rows[k]).Err?
    ensures Collect(rows, step).Err? ==> exists k :: (0 <= k < |rows| && step(rows[k]) == Err(Collect(rows, step).error)
      && forall j :: 0 <= j < k ==> step(rows[j]).Ok?)
  {
    if |rows| > 0 {
      var init := rows[..|rows| - 1];
      CollectFails(init, step);
      assert forall k :: 0 <= k < |init| ==> init[k] == rows[k];
      if Collect(init, step).Err? {
        var k :| 0 <= k < |init| && step(init[k]) == Err(Collect(init, step).error)
          && forall j :: 0 <= j < k ==> step(init[j]).Ok?;
        assert step(rows[k]) == Err(Collect(rows, step).error);
      } else if step(rows[|rows| - 1]).Err? {
        assert forall j :: 0 <= j < |rows| - 1 ==> step(rows[j]).Ok?;
      }
    }
  }

  /** What one row does in a loop with `break` on a result count. */
  datatype Outcome<T> =
    | Skip                   // `continue` before the limit test
    | Checked(items: seq<T>) // push the items, then `if (results.length >= limit) break`
    | Fail(error: Error)      // the body throws

  /** The loop with early stop, from `results == acc` onwards. */
  function Until<T>(rows: seq<Row>, step: Row -> Outcome<T>, limit: int, acc: seq<T>): (r: Result<seq<T>>)
    ensures r.Ok? ==> |acc| <= |r.value|
    decreases |rows|
  {
    if |rows| == 0 then Ok(acc)
    else
      match step(rows[0])
      case Skip => Until(rows[1..], step, limit, acc)
      case Fail(e) => Err(e)
      case Checked(items) =>
        if |acc + items| >= limit then Ok(acc + items)
        else Until(rows[1..], step, limit, acc + items)
  }

  /** The scan from row `i` on: what that row's outcome makes of the rest. */
  lemma UntilNext<T>(rows: seq<Row>, i: nat, step: Row -> Outcome<T>, limit: int, acc: seq<T>)
    requires i < |rows|
    ensures Until(rows[i..], step, limit, acc) ==
      match step(rows[i])
      case Skip => Until(rows[i + 1..], step, limit, acc)
      case Fail(e) => Err(e)
      case Checked(items) =>
        if |acc + items| >= limit then Ok(acc + items) else Until(rows[i + 1..], step, limit, acc + items)
  {
    assert rows[i..][0] == rows[i] && rows[i..][1..] == rows[i + 1..];
  }

  function Items<T>(o: Outcome<T>): seq<T>
  {
    if o.Checked? then o.items else []
  }

  /** The same loop without the `break`: every row's items. */
  function NoBreak<T>(step: Row -> Outcome<T>): Row -> seq<T>
  {
    row => Items(step(row))
  }

  /**
   * `r` is what the first `n` rows give, where the scan stops before the end only once it holds
   * `limit` items, and no shorter scan already held `limit` items (when the limit is positive).
   */
  ghost predicate StopsAtLimit<T>(rows: seq<Row>, items: Row -> seq<T>, limit: int, r: seq<T>)
  {
    exists n :: 0 <= n <= |rows| && r == Gather(rows[..n], items)
      && (n < |rows| ==> limit <= |r|)
      && (0 < limit ==> forall m :: 0 <= m < n ==> |Gather(rows[..m], items)| < limit)
  }

  /** Gathering the first `n + 1` rows is the first row's items, then the next `n` rows'. */
  lemma GatherFirst<T>(rows: seq<Row>, n: nat, items: Row -> seq<T>)
    requires n + 1 <= |rows|
    ensures Gather(rows[..n + 1], items) == items(rows[0]) + Gather(rows[1..][..n], items)
  {
    var first := rows[..1];
    assert first[..0] == [];
    assert Gather(first, items) == items(rows[0]);
    assert rows[..n + 1] == first + rows[1..][..n];
    GatherAppend(first, rows[1..][..n], items);
  }

  /**
   * `r` is `acc` followed by what the first `n` rows give; the scan stopped before the end only
   * holding at least `limit` results, and, starting below the limit, no shorter scan reached it.
   */
  ghost predicate PrefixRun<T>(rows: seq<Row>, items: Row -> seq<T>, limit: int, acc: seq<T>, r: seq<T>, n: int)
  {
    0 <= n <= |rows| && r == acc + Gather(rows[..n], items)
    && (n < |rows| ==> limit <= |r|)
    && (|acc| < limit ==> forall m :: 0 <= m < n ==> |acc + Gather(rows[..m], items)| < limit)
  }

  /** A run over the rows after the first, preceded by the first row's items, is a run over all. */
  lemma RunShift<T>(rows: seq<Row>, items: Row -> seq<T>, limit: int, acc: seq<T>, got: seq<T>, r: seq<T>, n: nat)
    requires 1 <= |rows| && items(rows[0]) == got && (got == [] || |acc + got| < limit)
    requires PrefixRun(rows[1..], items, limit, acc + got, r, n)
    ensures PrefixRun(rows, items, limit, acc, r, n + 1)
  {
    ScanShift(rows, items, acc, got, n);
    if |acc| < limit {
      forall m | 0 <= m < n + 1 ensures |acc + Gather(rows[..m], items)| < limit {
        if m == 0 {
          assert rows[..0] == [];
        } else {
          GatherFirst(rows, m - 1, items);
          assert acc + Gather(rows[..m], items) == acc + got + Gather(rows[1..][..m - 1], items);
        }
      }
    }
  }

  /**
   * The breaking loop returns what the full loop gathers over the first `n` rows, in row order:
   * it stops before the end only holding at least `limit` results, and never before it first
   * holds `limit`.
   */
  lemma {:induction false} UntilIsPrefixScan<T>(rows: seq<Row>, step: Row -> Outcome<T>, limit: int, acc: seq<T>)
    requires Until(rows, step, limit, acc).Ok?
    ensures exists n :: PrefixRun(rows, NoBreak(step), limit, acc, Until(rows, step, limit, acc).value, n)
    decreases |rows|
  {
    var items := NoBreak(step);
    var r := Until(rows, step, limit, acc).value;
    if |rows| == 0 {
      assert PrefixRun(rows, items, limit, acc, r, 0);
    } else {
      assert items(rows[0]) == Items(step(rows[0]));
      match step(rows[0])
      case Skip =>
        UntilIsPrefixScan(rows[1..], step, limit, acc);
        var n :| PrefixRun(rows[1..], items, limit, acc, r, n);
        assert acc + [] == acc;
        RunShift(rows, items, limit, acc, [], r, n);
      case Checked(got) =>
        if |acc + got| >= limit {
          ScanShift(rows, items, acc, got, 0);
          assert rows[..0] == [];
          assert PrefixRun(rows, items, limit, acc, r, 1);
        } else {
          UntilIsPrefixScan(rows[1..], step, limit, acc + got);
          var n :| PrefixRun(rows[1..], items, limit, acc + got, r, n);
          RunShift(rows, items, limit, acc, got, r, n);
        }
    }
  }

  /** A breaking loop that ends holding fewer than `limit` results has scanned every row. */
  lemma UntilComplete<T>(rows: seq<Row>, step: Row -> Outcome<T>, limit: int, acc: seq<T>)
    requires Until(rows, step, limit, acc).Ok? && |Until(rows, step, limit, acc).value| < limit
    ensures Until(rows, step, limit, acc).value == acc + Gather(rows, NoBreak(step))
  {
    UntilIsPrefixScan(rows, step, limit, acc);
    var n :| PrefixRun(rows, NoBreak(step), limit, acc, Until(rows, step, limit, acc).value, n);
    assert rows[..n] == rows;
  }

  /** From an empty start, the breaking loop's results are a scan that stops at the limit. */
  lemma UntilStops<T>(rows: seq<Row>, step: Row -> Outcome<T>, limit: int)
    requires Until(rows, step, limit, []).Ok?
    ensures StopsAtLimit(rows, NoBreak(step), limit, Until(rows, step, limit, []).value)
    ensures |Until(rows, step, limit, []).value| < limit ==> Until(rows, step, limit, []).value == Gather(rows, NoBreak(step))
  {
    var e: seq<T> := [];
    var r := Until(rows, step, limit, e).value;
    UntilIsPrefixScan(rows, step, limit, e);
    var n :| PrefixRun(rows, NoBreak(step), limit, e, r, n);
    assert r == Gather(rows[..n], NoBreak(step));
    if 0 < limit {
      forall m | 0 <= m < n ensures |Gather(rows[..m], NoBreak(step))| < limit {
        assert e + Gather(rows[..m], NoBreak(step)) == Gather(rows[..m], NoBreak(step));
      }
    }
    if |r| < limit {
      assert rows[..n] == rows;
    }
  }

  /** The first row's items ahead of a scan of the next `n` rows make a scan of the first `n + 1`. */
  lemma ScanShift<T>(rows: seq<Row>, items: Row -> seq<T>, acc: seq<T>, got: seq<T>, n: nat)
    requires n + 1 <= |rows| && items(rows[0]) == got
    ensures acc + got + Gather(rows[1..][..n], items) == acc + Gather(rows[..n + 1], items)
  {
    GatherFirst(rows, n, items);
  }

  /** The breaking loop throws only the exception of one of its rows. */
  lemma {:induction false} UntilFails<T>(rows: seq<Row>, step: Row -> Outcome<T>, limit: int, acc: seq<T>)
    requires Until(rows, step, limit, acc).Err?
    ensures exists k :: 0 <= k < |rows| && step(rows[k]) == Fail(Until(rows, step, limit, acc).error)
    decreases |rows|
  {
    match step(rows[0])
    case Fail(e) =>
    case Skip =>
      UntilFails(rows[1..], step, limit, acc);
      var k :| 0 <= k < |rows[1..]| && step(rows[1..][k]) == Fail(Until(rows[1..], step, limit, acc).error);
      assert rows[1..][k] == rows[k + 1];
    case Checked(got) =>
      UntilFails(rows[1..], step, limit, acc + got);
      var k :| 0 <= k < |rows[1..]| && step(rows[1..][k]) == Fail(Until(rows[1..], step, limit, acc + got).error);
      assert rows[1..][k] == rows[k + 1];
  }

  /** A loop none of whose rows throws never throws. */
  lemma {:induction false} UntilSucceeds<T>(rows: seq<Row>, step: Row -> Outcome<T>, limit: int, acc: seq<T>)
    requires forall k :: 0 <= k < |rows| ==> !step(rows[k]).Fail?
    ensures Until(rows, step, limit, acc).Ok?
    decreases |rows|
  {
    if |rows| > 0 {
      assert forall k :: 0 <= k < |rows[1..]| ==> rows[1..][k] == rows[k + 1];
      match step(rows[0])
      case Skip => UntilSucceeds(rows[1..], step, limit, acc);
      case Checked(got) =>
        if |acc + got| < limit {
          UntilSucceeds(rows[1..], step, limit, acc + got);
        }
    }
  }

  /** With a positive limit, a row adding at most one result keeps the loop within the limit. */
  lemma {:induction false} UntilBound<T>(rows: seq<Row>, step: Row -> Outcome<T>, limit: int, acc: seq<T>)
    requires 1 <= limit && |acc| < limit
    requires forall k :: 0 <= k < |rows| ==> |Items(step(rows[k]))| <= 1
    requires Until(rows, step, limit, acc).Ok?
    ensures |Until(rows, step, limit, acc).value| <= limit
    decreases |rows|
  {
    if |rows| > 0 {
      assert |Items(step(rows[0]))| <= 1;
      assert forall k :: 0 <= k < |rows[1..]| ==> rows[1..][k] == rows[k + 1];
      match step(rows[0])
      case Skip => UntilBound(rows[1..], step, limit, acc);
      case Checked(got) =>
        if |acc + got| < limit {
          UntilBound(rows[1..], step, limit, acc + got);
        }
    }
  }

  /** SQL `LIMIT limit OFFSET offset`: a negative offset counts as 0 and a negative limit as none. */
  function SqlPage<T>(rows: seq<T>, limit: int, offset: int): (r: seq<T>)
    ensures 0 <= limit ==> |r| <= limit
    ensures 0 <= offset <= |rows| && 0 <= limit ==>
      r == rows[offset..if offset + limit <= |rows| then offset + limit else |rows|]
    ensures |rows| <= offset ==> r == []
    ensures forall k :: 0 <= k < |r| ==> r[k] in rows
  {
    var start := if offset < 0 then 0 else if offset > |rows| then |rows| else offset;
    var rest := rows[start..];
    if limit < 0 || |rest| <= limit then rest else rest[..limit]
  }

  /** A JavaScript `slice` index: negative counts from the end, then clamped to the length. */
  function SliceIndex(i: int, n: nat): (k: nat)
    ensures k <= n
  {
    if i < 0 then (if n + i < 0 then 0 else n + i) else if i > n then n else i
  }

  /** JavaScript `s.slice(start, end)` */
  function JsSlice<T>(s: seq<T>, start: int, end: int): (r: seq<T>)
    ensures 0 <= start <= end ==> |r| == (if end <= |s| then end else |s|) - (if start <= |s| then start else |s|)
    ensures 0 <= start <= end && start <= |s| ==> r == s[start..if end <= |s| then end else |s|]
  {
    var a := SliceIndex(start, |s|);
    var b := SliceIndex(end, |s|);
    if a < b then s[a..b] else []
  }

  /** A slice holds no element more often than the sequence it is cut from. */
  lemma SliceSubMultiset<T>(s: seq<T>, start: int, end: int)
    ensures multiset(JsSlice(s, start, end)) <= multiset(s)
  {
    var a := SliceIndex(start, |s|);
    var b := SliceIndex(end, |s|);
    if a < b {
      assert s == s[..a] + s[a..b] + s[b..];
    }
  }

  /** Adjacent slices join into one. */
  lemma SliceJoin<T>(s: seq<T>, i: nat, j: nat, k: nat)
    requires i <= j <= k
    ensures JsSlice(s, i, j) + JsSlice(s, j, k) == JsSlice(s, i, k)
  {
    var a := SliceIndex(i, |s|);
    var b := SliceIndex(j, |s|);
    var c := SliceIndex(k, |s|);
    assert s[a..b] + s[b..c] == s[a..c];
  }

  /** `slice(0, end)` is always a prefix: the first `end` elements, or all but the last `-end`. */
  lemma SlicePrefix<T>(s: seq<T>, end: int)
    ensures JsSlice(s, 0, end) == s[..SliceIndex(end, |s|)]
  {
  }

  /** `slice(0, limit)` for a non-negative limit is the first `limit` elements. */
  lemma SliceFromStart<T>(s: seq<T>, limit: nat)
    ensures |JsSlice(s, 0, limit)| == if |s| <= limit then |s| else limit
    ensures JsSlice(s, 0, limit) == s[..|JsSlice(s, 0, limit)|]
  {
  }
}
