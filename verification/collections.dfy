/**
 * The array operations the repository and the store use on their small
 * collections: `findIndex`/`find` by a key, replace-or-append by a key,
 * `filter`, and `slice` with JavaScript's index rules.
 */
module Collections {

  import opened Entities

  /** `findIndex`: the first position whose key is `k`, or -1. */
  function FirstIndex<T, K(==)>(xs: seq<T>, key: T -> K, k: K): (i: int)
    ensures -1 <= i < |xs|
    ensures i == -1 <==> forall j :: 0 <= j < |xs| ==> key(xs[j]) != k
    ensures 0 <= i ==> key(xs[i]) == k && forall j :: 0 <= j < i ==> key(xs[j]) != k
  {
    if xs == [] then -1
    else if key(xs[0]) == k then 0
    else
      var i := FirstIndex(xs[1..], key, k);
      if i == -1 then -1 else i + 1
  }

  /** `find`: the first element whose key is `k`. */
  function Find<T, K(==)>(xs: seq<T>, key: T -> K, k: K): (r: Option<T>)
    ensures r.None? <==> forall j :: 0 <= j < |xs| ==> key(xs[j]) != k
    ensures r.Some? ==> r.value in xs && key(r.value) == k
    ensures r.Some? ==> 0 <= FirstIndex(xs, key, k) && r.value == xs[FirstIndex(xs, key, k)]
  {
    var i := FirstIndex(xs, key, k);
    if i == -1 then None else Some(xs[i])
  }

  /**
   * The repository's save-by-id: the first element with the key of `x` is
   * replaced by `x`; if there is none, `x` is pushed at the end.
   */
  function Upsert<T, K(==)>(xs: seq<T>, key: T -> K, x: T): seq<T>
  {
    var i := FirstIndex(xs, key, key(x));
    if i == -1 then xs + [x] else xs[i := x]
  }

  /**
   * After an upsert, looking the key up finds `x`; every other position
   * keeps its element and the length grows by one exactly when the key was
   * absent.
   */
  lemma UpsertThenFind<T, K>(xs: seq<T>, key: T -> K, x: T)
    ensures var r := Upsert(xs, key, x);
      && var i := FirstIndex(r, key, key(x));
      && 0 <= i && r[i] == x
      && |r| == (if FirstIndex(xs, key, key(x)) == -1 then |xs| + 1 else |xs|)
      && forall j :: 0 <= j < |xs| && j != i ==> r[j] == xs[j]
  {
    var r := Upsert(xs, key, x);
    var i0 := FirstIndex(xs, key, key(x));
    if i0 == -1 {
      assert r[|xs|] == x;
      assert FirstIndex(r, key, key(x)) == |xs|;
    } else {
      assert key(r[i0]) == key(x);
    }
  }

  /**
   * The store's cache merge: every element with the key of `x` is replaced
   * by `x` (`map`), and `x` is pushed when none had that key.
   */
  function MergeById<T, K(==)>(xs: seq<T>, key: T -> K, x: T): (r: seq<T>)
    ensures |r| == (if FirstIndex(xs, key, key(x)) == -1 then |xs| + 1 else |xs|)
    ensures forall j :: 0 <= j < |xs| ==> r[j] == (if key(xs[j]) == key(x) then x else xs[j])
    ensures x in r
  {
    var mapped := ReplaceAll(xs, key, x);
    if FirstIndex(mapped, key, key(x)) == -1 then mapped + [x] else mapped
  }

  /** After a merge, looking up the key of `x` finds `x`, and merging `x` again changes nothing. */
  lemma MergeThenFind<T, K>(xs: seq<T>, key: T -> K, x: T)
    ensures Find(MergeById(xs, key, x), key, key(x)) == Some(x)
    ensures MergeById(MergeById(xs, key, x), key, x) == MergeById(xs, key, x)
  {
    var r := MergeById(xs, key, x);
    var j :| 0 <= j < |r| && r[j] == x;
    assert key(r[j]) == key(x);
    var i := FirstIndex(r, key, key(x));
    assert r[i] == x;
    var twice := MergeById(r, key, x);
    forall k | 0 <= k < |r| ensures twice[k] == r[k] {
      if k < |xs| {
        assert r[k] == (if key(xs[k]) == key(x) then x else xs[k]);
      }
    }
  }

  /** `map` that replaces every element with the key of `x` by `x`. */
  function ReplaceAll<T, K(==)>(xs: seq<T>, key: T -> K, x: T): (r: seq<T>)
    ensures |r| == |xs|
    ensures forall j :: 0 <= j < |xs| ==> r[j] == (if key(xs[j]) == key(x) then x else xs[j])
  {
    seq(|xs|, j requires 0 <= j < |xs| => if key(xs[j]) == key(x) then x else xs[j])
  }

  /** Replacing by the key of `x` and then by the same key with `y` is one replacement with `y`. */
  lemma ReplaceAllTwice<T, K>(xs: seq<T>, key: T -> K, x: T, y: T)
    requires key(x) == key(y)
    ensures ReplaceAll(ReplaceAll(xs, key, x), key, y) == ReplaceAll(xs, key, y)
  {
    var once := ReplaceAll(xs, key, x);
    forall j | 0 <= j < |xs|
      ensures ReplaceAll(once, key, y)[j] == ReplaceAll(xs, key, y)[j]
    {
      if key(xs[j]) == key(x) {
        assert once[j] == x;
      }
    }
  }

  /** Two lists with the same keys position by position agree on every first index. */
  lemma {:induction false} FirstIndexSameKeys<T, K>(xs: seq<T>, ys: seq<T>, key: T -> K, k: K)
    requires |xs| == |ys|
    requires forall j :: 0 <= j < |xs| ==> key(xs[j]) == key(ys[j])
    ensures FirstIndex(xs, key, k) == FirstIndex(ys, key, k)
  {
    if xs != [] {
      FirstIndexSameKeys(xs[1..], ys[1..], key, k);
    }
  }

  /** `filter`: the elements satisfying `p`, in order. */
  function Filter<T>(xs: seq<T>, p: T -> bool): (r: seq<T>)
    ensures |r| <= |xs|
    ensures forall j :: 0 <= j < |r| ==> r[j] in xs && p(r[j])
    ensures forall j :: 0 <= j < |xs| && p(xs[j]) ==> xs[j] in r
  {
    if xs == [] then []
    else if p(xs[0]) then [xs[0]] + Filter(xs[1..], p)
    else Filter(xs[1..], p)
  }

  /** Filtering distributes over concatenation. */
  lemma {:induction false} FilterAppend<T>(a: seq<T>, b: seq<T>, p: T -> bool)
    ensures Filter(a + b, p) == Filter(a, p) + Filter(b, p)
  {
    if a == [] {
      assert a + b == b;
    } else {
      assert (a + b)[1..] == a[1..] + b;
      FilterAppend(a[1..], b, p);
    }
  }

  /** Filtering by `p` and then by a stronger `q` is filtering by `q` alone. */
  lemma {:induction false} FilterNarrows<T>(xs: seq<T>, p: T -> bool, q: T -> bool)
    requires forall j :: 0 <= j < |xs| && q(xs[j]) ==> p(xs[j])
    ensures Filter(Filter(xs, p), q) == Filter(xs, q)
  {
    if xs != [] {
      FilterNarrows(xs[1..], p, q);
      if p(xs[0]) {
        assert ([xs[0]] + Filter(xs[1..], p))[1..] == Filter(xs[1..], p);
      }
    }
  }

  /** Filtering keeps a list whose every element passes. */
  lemma {:induction false} FilterKeepsAll<T>(xs: seq<T>, p: T -> bool)
    requires forall j :: 0 <= j < |xs| ==> p(xs[j])
    ensures Filter(xs, p) == xs
  {
    if xs != [] {
      FilterKeepsAll(xs[1..], p);
      assert [xs[0]] + xs[1..] == xs;
    }
  }

  /** Filtering empties a list whose every element fails. */
  lemma {:induction false} FilterDropsAll<T>(xs: seq<T>, p: T -> bool)
    requires forall j :: 0 <= j < |xs| ==> !p(xs[j])
    ensures Filter(xs, p) == []
  {
    if xs != [] {
      FilterDropsAll(xs[1..], p);
    }
  }

  /** A relative `slice` index resolved against a length, as JavaScript does. */
  function SliceIndex(i: int, len: nat): (r: nat)
    ensures r <= len
    ensures 0 <= i <= len ==> r == i
    ensures i < 0 ==> r == (if len + i < 0 then 0 else len + i)
    ensures i > len ==> r == len
  {
    if i < 0 then (if len + i < 0 then 0 else len + i)
    else if i > len then len
    else i
  }

  /**
   * `xs.slice(start, end)`: the contiguous run of `xs` between the resolved
   * start and end, empty when the resolved end is not past the start.
   */
  function Slice<T>(xs: seq<T>, start: int, end: int): (r: seq<T>)
    ensures |r| <= |xs|
    ensures start == 0 && end > 0 ==> r == xs[..if end < |xs| then end else |xs|]
    ensures start == 0 ==> r == xs[..SliceIndex(end, |xs|)]
    ensures end >= |xs| ==> r == xs[SliceIndex(start, |xs|)..]
    ensures 0 <= start <= |xs| <= end ==> r == xs[start..]
  {
    var s, e := SliceIndex(start, |xs|), SliceIndex(end, |xs|);
    if s < e then xs[s..e] else []
  }

  /**
   * Every `slice` is a window of `xs`: its elements are those of `xs` from
   * the resolved start, as many as lie before the resolved end.
   */
  lemma SliceWindow<T>(xs: seq<T>, start: int, end: int)
    ensures var r, s, e := Slice(xs, start, end), SliceIndex(start, |xs|), SliceIndex(end, |xs|);
      && |r| == (if s < e then e - s else 0)
      && forall j :: 0 <= j < |r| ==> r[j] == xs[s + j]
  {
  }

  /**
   * The paging of a list: `slice(offset)` when an offset is given, then
   * `slice(0, limit)` when a limit is given. With a non-negative offset and
   * limit it is the window of at most `limit` elements from `offset`.
   */
  function Page<T>(xs: seq<T>, limit: Option<int>, offset: Option<int>): (r: seq<T>)
    ensures limit.None? && offset.None? ==> r == xs
    ensures offset.None? && limit.Some? ==> r == xs[..SliceIndex(limit.value, |xs|)]
    ensures offset.Some? && limit.None? ==> r == xs[SliceIndex(offset.value, |xs|)..]
    ensures offset.Some? && limit.Some? ==>
      var rest := xs[SliceIndex(offset.value, |xs|)..];
      r == rest[..SliceIndex(limit.value, |rest|)]
    ensures offset.Some? && 0 <= offset.value && limit.Some? && 0 <= limit.value ==>
      var lo := if offset.value < |xs| then offset.value else |xs|;
      var hi := if lo + limit.value < |xs| then lo + limit.value else |xs|;
      r == xs[lo..hi]
  {
    var afterOffset := if offset.Some? then Slice(xs, offset.value, |xs|) else xs;
    if limit.Some? then Slice(afterOffset, 0, limit.value) else afterOffset
  }

  /**
   * Consecutive pages tile the list: the page of `n` elements at `o`
   * followed by everything from `o + n` is everything from `o`.
   */
  lemma PagesTile<T>(xs: seq<T>, o: nat, n: nat)
    ensures Page(xs, Some(n), Some(o)) + Page(xs, None, Some(o + n)) == Page(xs, None, Some(o))
  {
    var lo := if o < |xs| then o else |xs|;
    var hi := if lo + n < |xs| then lo + n else |xs|;
    var rest := Page(xs, None, Some(o + n));
    assert rest == xs[hi..] by {
      if o + n <= |xs| {
        assert SliceIndex(o + n, |xs|) == hi;
      } else {
        assert hi == |xs|;
      }
    }
    assert Page(xs, None, Some(o)) == xs[lo..];
    assert xs[lo..hi] + xs[hi..] == xs[lo..];
  }
}
