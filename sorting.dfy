/**
 * `Array.prototype.sort(compare)` and Python's `sorted(key=..., reverse=True)`, both stable sorts,
 * stood in for by a stable insertion sort. A comparator result is read as "a before b" when it is
 * negative; a JavaScript comparator that yields NaN is a comparator that yields 0.
 */
module Sorting {

  /** A comparison in the style of `compare(a, b)`: negative, zero or positive. */
  type Comparator<!T> = (T, T) -> int

  /** `r` is ordered by `cmp`: no later element compares below an earlier one. */
  ghost predicate Sorted<T>(cmp: Comparator<T>, r: seq<T>)
  {
    forall i, j :: 0 <= i < j < |r| ==> cmp(r[i], r[j]) <= 0
  }

  /**
   * `cmp` behaves as a consistent total preorder on the elements of `s`: "not after" is
   * transitive, and when `a` does not come strictly before `b`, `b` does not come after `a`.
   * Numeric differences and `Compare` on strings are such comparators.
   */
  ghost predicate Consistent<T>(cmp: Comparator<T>, s: seq<T>)
  {
    (forall a, b, c :: a in s && b in s && c in s && cmp(a, b) <= 0 && cmp(b, c) <= 0 ==> cmp(a, c) <= 0)
    && (forall a, b :: a in s && b in s && cmp(a, b) >= 0 ==> cmp(b, a) <= 0)
  }

  /**
   * `page` is drawn from `pool` and none of it comes after anything of `pool` it leaves out:
   * `page` holds the first elements of `pool` in `cmp`'s order.
   */
  ghost predicate TopOf<T>(cmp: Comparator<T>, page: seq<T>, pool: multiset<T>)
  {
    multiset(page) <= pool
    && forall i, x :: 0 <= i < |page| && x in pool - multiset(page) ==> cmp(page[i], x) <= 0
  }

  /** A prefix of a sorted sequence is the top of that sequence. */
  lemma SortedPrefixTop<T>(cmp: Comparator<T>, s: seq<T>, k: nat)
    requires k <= |s|
    ensures Sorted(cmp, s) ==> TopOf(cmp, s[..k], multiset(s))
  {
    assert s == s[..k] + s[k..];
    assert multiset(s) - multiset(s[..k]) == multiset(s[k..]);
    if Sorted(cmp, s) {
      forall i, x | 0 <= i < k && x in multiset(s) - multiset(s[..k]) ensures cmp(s[..k][i], x) <= 0 {
        assert x in s[k..];
        var j :| 0 <= j < |s[k..]| && s[k..][j] == x;
        assert s[k + j] == x;
      }
    }
  }

  /** Places `x` before the first element of `xs` that it strictly precedes. */
  function Insert<T>(cmp: Comparator<T>, xs: seq<T>, x: T): (r: seq<T>)
    ensures multiset(r) == multiset(xs) + multiset{x}
    ensures |r| == |xs| + 1
  {
    if |xs| == 0 then [x]
    else if cmp(x, xs[0]) < 0 then [x] + xs
    else
      assert xs == [xs[0]] + xs[1..];
      [xs[0]] + Insert(cmp, xs[1..], x)
  }

  /** The stable sort of `s` by `cmp`. */
  function Sort<T>(cmp: Comparator<T>, s: seq<T>): (r: seq<T>)
    ensures multiset(r) == multiset(s)
    ensures |r| == |s|
  {
    if |s| == 0 then []
    else
      assert s == s[..|s| - 1] + [s[|s| - 1]];
      Insert(cmp, Sort(cmp, s[..|s| - 1]), s[|s| - 1])
  }

  lemma {:induction false} InsertSorted<T>(cmp: Comparator<T>, xs: seq<T>, x: T, s: seq<T>)
    requires Consistent(cmp, s)
    requires x in s && forall k :: 0 <= k < |xs| ==> xs[k] in s
    requires Sorted(cmp, xs)
    ensures Sorted(cmp, Insert(cmp, xs, x))
  {
    if |xs| == 0 {
    } else if cmp(x, xs[0]) < 0 {
      var r := [x] + xs;
      forall i, j | 0 <= i < j < |r| ensures cmp(r[i], r[j]) <= 0 {
        if i == 0 && j > 1 {
          assert xs[0] in s && xs[j - 1] in s;
          assert cmp(xs[0], xs[j - 1]) <= 0;
        }
      }
    } else {
      assert xs[0] in s;
      assert cmp(xs[0], x) <= 0;
      InsertSorted(cmp, xs[1..], x, s);
      var tail := Insert(cmp, xs[1..], x);
      var r := [xs[0]] + tail;
      assert multiset(tail) == multiset(xs[1..]) + multiset{x};
      forall i, j | 0 <= i < j < |r| ensures cmp(r[i], r[j]) <= 0 {
        if i == 0 {
          var y := r[j];
          assert y in multiset(tail);
          if y == x {
          } else {
            assert y in multiset(xs[1..]);
            assert y in xs[1..];
            var k :| 0 <= k < |xs[1..]| && xs[1..][k] == y;
            assert xs[k + 1] == y;
          }
        }
      }
    }
  }

  /** Sorting yields the same elements, and they are in order whenever `cmp` is consistent on them. */
  lemma {:induction false} SortCorrect<T>(cmp: Comparator<T>, s: seq<T>)
    ensures multiset(Sort(cmp, s)) == multiset(s)
    ensures Consistent(cmp, s) ==> Sorted(cmp, Sort(cmp, s))
  {
    if |s| > 0 && Consistent(cmp, s) {
      var init := s[..|s| - 1];
      assert forall y :: y in init ==> y in s;
      assert Consistent(cmp, init);
      SortCorrect(cmp, init);
      var t := Sort(cmp, init);
      forall k | 0 <= k < |t| ensures t[k] in s {
        assert t[k] in multiset(init);
      }
      InsertSorted(cmp, t, s[|s| - 1], s);
    }
  }
}
