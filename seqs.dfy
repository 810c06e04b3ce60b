/**
 * The JavaScript array operations the dashboard's pipelines are built from:
 * `filter`, `slice`, `find` and a stable `sort`, stated over Dafny sequences.
 */
module Seqs {
  import opened Optional

  function Min(a: int, b: int): int { if a <= b then a else b }
  function Max(a: int, b: int): int { if a >= b then a else b }

  /** `Math.min` and `Math.max` on numbers. */
  function MinR(a: real, b: real): real { if a <= b then a else b }
  function MaxR(a: real, b: real): real { if a >= b then a else b }

  /** A draw of `Math.random()`. */
  predicate IsDraw(r: real) { 0.0 <= r < 1.0 }

  /**
   * `Math.floor(Math.random() * n)`, the dashboard's way of picking one of `n`
   * items, with the random draw in [0, 1) as a parameter.
   */
  function RandomIndex(draw: real, n: nat): (i: nat)
    requires IsDraw(draw) && n > 0
    ensures i < n
    ensures i as real <= draw * n as real < i as real + 1.0
  {
    assert draw * n as real < n as real by {
      assert (1.0 - draw) * n as real > 0.0;
    }
    (draw * n as real).Floor
  }

  /** `s.filter(p)`: the elements of `s` that satisfy `p`, in their original order. */
  function Filter<T(!new)>(s: seq<T>, p: T -> bool): (r: seq<T>)
    ensures |r| <= |s|
    ensures forall x :: x in r <==> x in s && p(x)
  {
    if s == [] then []
    else
      assert s == [s[0]] + s[1..];
      (if p(s[0]) then [s[0]] else []) + Filter(s[1..], p)
  }

  /** A filter keeps each element at most as often as the input has it. */
  lemma {:induction false} FilterSubMultiset<T(!new)>(s: seq<T>, p: T -> bool)
    ensures multiset(Filter(s, p)) <= multiset(s)
  {
    if s != [] {
      FilterSubMultiset(s[1..], p);
      assert s == [s[0]] + s[1..];
    }
  }

  /** Filtering distributes over concatenation; it is what makes `filter` order-preserving. */
  lemma {:induction false} FilterAppend<T(!new)>(s: seq<T>, t: seq<T>, p: T -> bool)
    ensures Filter(s + t, p) == Filter(s, p) + Filter(t, p)
  {
    if s == [] {
      assert s + t == t;
    } else {
      assert (s + t)[0] == s[0];
      assert (s + t)[1..] == s[1..] + t;
      FilterAppend(s[1..], t, p);
    }
  }

  /** Two complementary filters keep as many elements as there are. */
  lemma {:induction false} FilterPartitionLength<T(!new)>(s: seq<T>, p: T -> bool, q: T -> bool)
    requires forall x :: q(x) == !p(x)
    ensures |Filter(s, p)| + |Filter(s, q)| == |s|
  {
    if s != [] {
      FilterPartitionLength(s[1..], p, q);
      assert q(s[0]) == !p(s[0]);
    }
  }

  /** Two complementary filters split a sequence's elements between them. */
  lemma {:induction false} FilterPartitionMultiset<T(!new)>(s: seq<T>, p: T -> bool, q: T -> bool)
    requires forall x :: q(x) == !p(x)
    ensures multiset(Filter(s, p)) + multiset(Filter(s, q)) == multiset(s)
  {
    if s != [] {
      var x, rest := s[0], s[1..];
      FilterPartitionMultiset(rest, p, q);
      assert s == [x] + rest;
      assert multiset(s) == multiset{x} + multiset(rest);
      assert q(x) == !p(x);
    }
  }

  /**
   * Two complementary filters split a sequence: every element lands in exactly one
   * of them, so the multisets add up and so do the lengths.
   */
  lemma FilterPartition<T(!new)>(s: seq<T>, p: T -> bool, q: T -> bool)
    requires forall x :: q(x) == !p(x)
    ensures multiset(Filter(s, p)) + multiset(Filter(s, q)) == multiset(s)
    ensures |Filter(s, p)| + |Filter(s, q)| == |s|
  {
    FilterPartitionMultiset(s, p, q);
    FilterPartitionLength(s, p, q);
  }

  /** A filter whose predicate is implied by another's keeps at least as much. */
  lemma {:induction false} FilterMonotone<T(!new)>(s: seq<T>, p: T -> bool, q: T -> bool)
    requires forall x :: p(x) ==> q(x)
    ensures |Filter(s, p)| <= |Filter(s, q)|
  {
    if s != [] {
      FilterMonotone(s[1..], p, q);
    }
  }

  /** Filtering twice keeps what satisfies both predicates. */
  lemma {:induction false} FilterFilter<T(!new)>(s: seq<T>, p: T -> bool, q: T -> bool, pq: T -> bool)
    requires forall x :: pq(x) == (p(x) && q(x))
    ensures Filter(Filter(s, p), q) == Filter(s, pq)
  {
    if s != [] {
      FilterFilter(s[1..], p, q, pq);
      FilterAppend(if p(s[0]) then [s[0]] else [], Filter(s[1..], p), q);
    }
  }

  /** Two predicates that agree everywhere filter alike. */
  lemma {:induction false} FilterExtensional<T(!new)>(s: seq<T>, p: T -> bool, q: T -> bool)
    requires forall x :: p(x) == q(x)
    ensures Filter(s, p) == Filter(s, q)
  {
    if s != [] {
      FilterExtensional(s[1..], p, q);
    }
  }

  /** A filter whose predicate holds everywhere returns its input. */
  lemma {:induction false} FilterAll<T(!new)>(s: seq<T>, p: T -> bool)
    requires forall x :: x in s ==> p(x)
    ensures Filter(s, p) == s
  {
    if s != [] {
      FilterAll(s[1..], p);
    }
  }

  /**
   * `s.slice(start)`: JavaScript counts a negative start from the end, so the
   * result is always a suffix of `s`.
   */
  function SliceFrom<T>(s: seq<T>, start: int): (r: seq<T>)
    ensures |r| == if start >= 0 then Max(0, |s| - start) else Min(-start, |s|)
    ensures r == s[|s| - |r|..]
  {
    if start >= 0 then s[Min(start, |s|)..] else s[Max(0, |s| + start)..]
  }

  /**
   * `s.slice(0, end)`: JavaScript counts a negative end from the end, so the
   * result is always a prefix of `s`.
   */
  function SliceTo<T>(s: seq<T>, end: int): (r: seq<T>)
    ensures |r| == if end >= 0 then Min(end, |s|) else Max(0, |s| + end)
    ensures r == s[..|r|]
  {
    if end >= 0 then s[..Min(end, |s|)] else s[..Max(0, |s| + end)]
  }

  /** The index `findIndex` returns: the first element satisfying `p`, or -1. */
  function FindIndex<T>(s: seq<T>, p: T -> bool): (i: int)
    ensures -1 <= i < |s|
    ensures i >= 0 ==> p(s[i])
    ensures forall j :: 0 <= j < |s| && (i < 0 || j < i) ==> !p(s[j])
  {
    if s == [] then -1
    else if p(s[0]) then 0
    else
      var k := FindIndex(s[1..], p);
      if k < 0 then -1 else k + 1
  }

  /** `s.find(p)`: the first element satisfying `p`, or nothing when none does. */
  function Find<T(!new)>(s: seq<T>, p: T -> bool): (r: Option<T>)
    ensures r.None? <==> forall x :: x in s ==> !p(x)
    ensures r.Some? ==> r.value in s && p(r.value)
    ensures r.Some? ==> exists i :: 0 <= i < |s| && s[i] == r.value && forall j :: 0 <= j < i ==> !p(s[j])
  {
    var i := FindIndex(s, p);
    if i < 0 then None else Some(s[i])
  }

  /** Sorting neither adds nor drops elements. */
  lemma InsertionSortMembers<T>(s: seq<T>, le: (T, T) -> bool)
    ensures forall x :: x in InsertionSort(s, le) <==> x in s
    ensures multiset(InsertionSort(s, le)) == multiset(s)
  {
    InsertionSortPermutes(s, le);
    assert forall x :: x in InsertionSort(s, le) <==> x in multiset(InsertionSort(s, le));
  }

  /** `le` is a total preorder: a consistent comparator in the sense of `Array.prototype.sort`. */
  ghost predicate TotalPreorder<T(!new)>(le: (T, T) -> bool) {
    && (forall a, b :: le(a, b) || le(b, a))
    && (forall a, b, c :: le(a, b) && le(b, c) ==> le(a, c))
  }

  predicate SortedBy<T>(s: seq<T>, le: (T, T) -> bool) {
    forall i, j :: 0 <= i < j < |s| ==> le(s[i], s[j])
  }

  /**
   * Inserts `x` at the end of `s` and moves it left past every element that may
   * not precede it; equal elements stay in front of it.
   */
  function Insert<T>(s: seq<T>, x: T, le: (T, T) -> bool): (r: seq<T>)
    ensures |r| == |s| + 1
  {
    if s == [] then [x]
    else if le(s[|s| - 1], x) then s + [x]
    else Insert(s[..|s| - 1], x, le) + [s[|s| - 1]]
  }

  /** Insertion adds exactly `x`. */
  lemma {:induction false} InsertPermutes<T>(s: seq<T>, x: T, le: (T, T) -> bool)
    ensures multiset(Insert(s, x, le)) == multiset(s) + multiset{x}
  {
    if s != [] && !le(s[|s| - 1], x) {
      InsertPermutes(s[..|s| - 1], x, le);
      assert s == s[..|s| - 1] + [s[|s| - 1]];
    }
  }

  /**
   * Stable insertion sort. `Array.prototype.sort` is required to be stable, and a
   * stable sort under a consistent comparator has exactly one possible result, so
   * this is the result of every `sort` call in the dashboard.
   */
  function InsertionSort<T>(s: seq<T>, le: (T, T) -> bool): (r: seq<T>)
    ensures |r| == |s|
  {
    if s == [] then []
    else Insert(InsertionSort(s[..|s| - 1], le), s[|s| - 1], le)
  }

  /** The sort's result is a permutation of its input. */
  lemma {:induction false} InsertionSortPermutes<T>(s: seq<T>, le: (T, T) -> bool)
    ensures multiset(InsertionSort(s, le)) == multiset(s)
  {
    if s != [] {
      InsertionSortPermutes(s[..|s| - 1], le);
      InsertPermutes(InsertionSort(s[..|s| - 1], le), s[|s| - 1], le);
      assert s == s[..|s| - 1] + [s[|s| - 1]];
    }
  }

  lemma {:induction false} InsertKeepsSorted<T(!new)>(s: seq<T>, x: T, le: (T, T) -> bool)
    requires TotalPreorder(le)
    requires SortedBy(s, le)
    ensures SortedBy(Insert(s, x, le), le)
  {
    if s != [] && !le(s[|s| - 1], x) {
      var init, last := s[..|s| - 1], s[|s| - 1];
      InsertKeepsSorted(init, x, le);
      var r := Insert(init, x, le);
      InsertPermutes(init, x, le);
      assert le(x, last);
      forall y | y in multiset(r)
        ensures le(y, last)
      {
        assert y in multiset(init) + multiset{x};
        if y in init {
          var k :| 0 <= k < |init| && init[k] == y;
          assert s[k] == y;
        }
      }
      forall i | 0 <= i < |r|
        ensures le(r[i], last)
      {
        assert r[i] in multiset(r);
      }
    }
  }

  /** The sort's result is ordered by the comparator. */
  lemma {:induction false} InsertionSortSorted<T(!new)>(s: seq<T>, le: (T, T) -> bool)
    requires TotalPreorder(le)
    ensures SortedBy(InsertionSort(s, le), le)
  {
    if s != [] {
      InsertionSortSorted(s[..|s| - 1], le);
      InsertKeepsSorted(InsertionSort(s[..|s| - 1], le), s[|s| - 1], le);
    }
  }

  /**
   * A group of elements the comparator ranks alike: any two of them may
   * precede each other.
   */
  ghost predicate Tied<T(!new)>(le: (T, T) -> bool, tie: T -> bool) {
    forall a, b :: tie(a) && tie(b) ==> le(a, b)
  }

  lemma FilterSingleton<T(!new)>(y: T, p: T -> bool)
    ensures Filter([y], p) == if p(y) then [y] else []
  {
    assert [y][1..] == [];
  }

  lemma SwapEmpty<T>(a: seq<T>, b: seq<T>, c: seq<T>)
    requires b == [] || c == []
    ensures a + b + c == a + c + b
  {
  }

  /** Insertion never moves `x` in front of an element tied with it. */
  lemma {:induction false} InsertStable<T(!new)>(s: seq<T>, x: T, le: (T, T) -> bool, tie: T -> bool)
    requires Tied(le, tie)
    ensures Filter(Insert(s, x, le), tie) == Filter(s, tie) + Filter([x], tie)
  {
    if s == [] {
      assert Insert(s, x, le) == [x];
    } else if le(s[|s| - 1], x) {
      FilterAppend(s, [x], tie);
    } else {
      var init, last := s[..|s| - 1], s[|s| - 1];
      assert !(tie(x) && tie(last));
      assert s == init + [last];
      assert Insert(s, x, le) == Insert(init, x, le) + [last];
      InsertStable(init, x, le, tie);
      FilterAppend(Insert(init, x, le), [last], tie);
      FilterAppend(init, [last], tie);
      FilterSingleton(x, tie);
      FilterSingleton(last, tie);
      SwapEmpty(Filter(init, tie), Filter([x], tie), Filter([last], tie));
    }
  }

  /**
   * The sort is stable: the elements of a tied group come out in the order
   * they went in.
   */
  lemma {:induction false} InsertionSortStable<T(!new)>(s: seq<T>, le: (T, T) -> bool, tie: T -> bool)
    requires Tied(le, tie)
    ensures Filter(InsertionSort(s, le), tie) == Filter(s, tie)
  {
    if s != [] {
      var init, last := s[..|s| - 1], s[|s| - 1];
      assert s == init + [last];
      var sorted := InsertionSort(init, le);
      assert InsertionSort(s, le) == Insert(sorted, last, le);
      InsertionSortStable(init, le, tie);
      InsertStable(sorted, last, le, tie);
      FilterAppend(init, [last], tie);
    }
  }

  /** One unfolding of `Insert` when `x` has to move past the last element of `s[..j]`. */
  lemma InsertPastLast<T>(s: seq<T>, j: int, x: T, le: (T, T) -> bool)
    requires 0 < j <= |s|
    requires !le(s[j - 1], x)
    ensures Insert(s[..j], x, le) == Insert(s[..j - 1], x, le) + [s[j - 1]]
  {
    assert s[..j][..j - 1] == s[..j - 1];
  }

  lemma AppendAssoc<T>(a: seq<T>, b: seq<T>, c: seq<T>, y: T, m: seq<T>)
    requires a == b + m && b == c + [y]
    ensures a == c + ([y] + m)
  {
  }

  /** `Insert` stops as soon as the element before `x` may precede it, or at the front. */
  lemma InsertStops<T>(s: seq<T>, j: int, x: T, le: (T, T) -> bool)
    requires 0 <= j <= |s|
    requires j > 0 ==> le(s[j - 1], x)
    ensures Insert(s[..j], x, le) == s[..j] + [x]
  {
  }

  lemma Regroup<T>(p: seq<T>, x: T, y: T, m: seq<T>, r: seq<T>)
    ensures p + [x, y] + (m + r) == p + [x] + ([y] + m) + r
  {
    assert [x, y] == [x] + [y];
  }

  /** Swaps the elements at `j - 1` and `j`, stated on the array's contents. */
  method SwapDown<T>(a: array<T>, j: int, ghost p: seq<T>, ghost y: T, ghost x: T, ghost m: seq<T>)
    requires 0 < j < a.Length && |p| == j - 1
    requires a[..] == p + [y, x] + m
    modifies a
    ensures a[..] == p + [x, y] + m
  {
    a[j - 1], a[j] := a[j], a[j - 1];
    assert a[..] == (p + [y, x] + m)[j - 1 := x][j := y];
  }

  /**
   * The inner loop of insertion sort: the element at `i` moves left by adjacent
   * swaps until the element before it may precede it.
   */
  method InsertAt<T>(a: array<T>, i: int, le: (T, T) -> bool)
    requires 0 <= i < a.Length
    modifies a
    ensures a[..i + 1] == Insert(old(a[..i]), old(a[i]), le)
    ensures a[i + 1..] == old(a[i + 1..])
  {
    ghost var sorted := a[..i];
    ghost var rest := a[i + 1..];
    ghost var x := a[i];
    ghost var moved: seq<T> := [];
    assert sorted[..i] == sorted;
    assert a[..] == sorted[..i] + [x] + moved + rest;
    var j := i;
    while j > 0 && !le(a[j - 1], a[j])
      invariant 0 <= j <= i
      invariant a[..] == sorted[..j] + [x] + moved + rest
      invariant Insert(sorted, x, le) == Insert(sorted[..j], x, le) + moved
    {
      ghost var y := sorted[j - 1];
      ghost var p := sorted[..j - 1];
      assert sorted[..j] == p + [y];
      assert a[j - 1] == y && a[j] == x;
      InsertPastLast(sorted, j, x, le);
      AppendAssoc(Insert(sorted, x, le), Insert(sorted[..j], x, le), Insert(p, x, le), y, moved);
      SwapDown(a, j, p, y, x, moved + rest);
      Regroup(p, x, y, moved, rest);
      moved := [y] + moved;
      j := j - 1;
    }
    ghost var final := a[..];
    assert j > 0 ==> final[j - 1] == sorted[j - 1] && final[j] == x;
    InsertStops(sorted, j, x, le);
    assert final[..i + 1] == sorted[..j] + [x] + moved;
    assert final[i + 1..] == rest;
  }

  /** `a.sort(cmp)` in place: the array ends up holding the stable sort of its old contents. */
  method SortInPlace<T>(a: array<T>, le: (T, T) -> bool)
    modifies a
    ensures a[..] == InsertionSort(old(a[..]), le)
  {
    ghost var orig := a[..];
    var i := 0;
    while i < a.Length
      invariant 0 <= i <= a.Length
      invariant a[..i] == InsertionSort(orig[..i], le)
      invariant a[i..] == orig[i..]
    {
      assert orig[..i + 1][..i] == orig[..i];
      InsertAt(a, i, le);
      i := i + 1;
    }
    assert orig[..a.Length] == orig;
    assert a[..] == a[..a.Length];
  }

  /**
   * `[...s].sort(cmp)`: the elements are copied into a fresh array, which is
   * sorted in place; `s` itself, and every array the caller holds, is untouched.
   */
  method SortedCopy<T>(s: seq<T>, le: (T, T) -> bool) returns (r: seq<T>)
    ensures r == InsertionSort(s, le)
  {
    var a := new T[|s|](i requires 0 <= i < |s| => s[i]);
    assert a[..] == s;
    SortInPlace(a, le);
    r := a[..];
  }
}
