/**
 * `Array.prototype.sort(compare)`: a stable sort driven by a three-way
 * comparator.  The engine's algorithm is not visible, so the sort is
 * modelled as a stable insertion sort; for a consistent comparator every
 * stable sort gives this same order.
 */
module Sorting {

  /** `cmp` behaves as a comparator on the elements of `s`. */
  ghost predicate ConsistentOn<T(!new)>(cmp: (T, T) -> int, s: seq<T>) {
    && (forall a, b | a in s && b in s :: cmp(a, b) < 0 <==> cmp(b, a) > 0)
    && (forall a, b, c | a in s && b in s && c in s ::
          cmp(a, b) <= 0 && cmp(b, c) <= 0 ==> cmp(a, c) <= 0)
  }

  /** No element compares greater than a later one. */
  ghost predicate SortedBy<T>(cmp: (T, T) -> int, s: seq<T>) {
    forall i, j | 0 <= i < j < |s| :: cmp(s[i], s[j]) <= 0
  }

  /** Inserts `x` into `t` after every element that does not compare greater than `x`. */
  function Insert<T>(t: seq<T>, x: T, cmp: (T, T) -> int): seq<T>
    decreases |t|
  {
    if t == [] || cmp(t[|t| - 1], x) <= 0 then t + [x]
    else Insert(t[..|t| - 1], x, cmp) + [t[|t| - 1]]
  }

  /** The order `s.sort(cmp)` produces. */
  function InsertionSort<T>(s: seq<T>, cmp: (T, T) -> int): seq<T>
    decreases |s|
  {
    if s == [] then [] else Insert(InsertionSort(s[..|s| - 1], cmp), s[|s| - 1], cmp)
  }

  lemma {:induction false} InsertPermutes<T>(t: seq<T>, x: T, cmp: (T, T) -> int)
    ensures multiset(Insert(t, x, cmp)) == multiset(t) + multiset{x}
    decreases |t|
  {
    if t != [] && cmp(t[|t| - 1], x) > 0 {
      InsertPermutes(t[..|t| - 1], x, cmp);
      assert t == t[..|t| - 1] + [t[|t| - 1]];
    }
  }

  /** Sorting only reorders: the result is a permutation of the input. */
  lemma {:induction false} SortPermutes<T>(s: seq<T>, cmp: (T, T) -> int)
    ensures multiset(InsertionSort(s, cmp)) == multiset(s)
    ensures |InsertionSort(s, cmp)| == |s|
    decreases |s|
  {
    if s != [] {
      SortPermutes(s[..|s| - 1], cmp);
      InsertPermutes(InsertionSort(s[..|s| - 1], cmp), s[|s| - 1], cmp);
      assert s == s[..|s| - 1] + [s[|s| - 1]];
    }
    assert |InsertionSort(s, cmp)| == |multiset(InsertionSort(s, cmp))|;
  }

  /** Every element of an insertion is the inserted one or came from `t`. */
  lemma {:induction false} InsertElements<T>(t: seq<T>, x: T, cmp: (T, T) -> int)
    ensures forall y | y in Insert(t, x, cmp) :: y == x || y in t
  {
    InsertPermutes(t, x, cmp);
    forall y | y in Insert(t, x, cmp) ensures y == x || y in t {
      assert y in multiset(Insert(t, x, cmp));
    }
  }

  /** Appending an element no earlier element compares greater than keeps a list sorted. */
  lemma SortedSnoc<T>(t: seq<T>, x: T, cmp: (T, T) -> int)
    requires SortedBy(cmp, t) && forall i | 0 <= i < |t| :: cmp(t[i], x) <= 0
    ensures SortedBy(cmp, t + [x])
  {
    var r := t + [x];
    forall i, j | 0 <= i < j < |r| ensures cmp(r[i], r[j]) <= 0 {
      if j < |t| { assert r[i] == t[i] && r[j] == t[j]; }
    }
  }

  /** When `x` goes before the last element, the last element stays last and still ends the sorted list. */
  lemma InsertBeforeLast<T>(t: seq<T>, x: T, cmp: (T, T) -> int)
    requires t != [] && SortedBy(cmp, t) && cmp(x, t[|t| - 1]) < 0
    requires SortedBy(cmp, Insert(t[..|t| - 1], x, cmp))
    ensures SortedBy(cmp, Insert(t[..|t| - 1], x, cmp) + [t[|t| - 1]])
  {
    var n := |t| - 1;
    var init := t[..n];
    var r' := Insert(init, x, cmp);
    InsertElements(init, x, cmp);
    forall i | 0 <= i < |r'| ensures cmp(r'[i], t[n]) <= 0 {
      if r'[i] != x {
        assert r'[i] in r';
        var k :| 0 <= k < n && init[k] == r'[i];
        assert cmp(t[k], t[n]) <= 0;
      }
    }
    SortedSnoc(r', t[n], cmp);
  }

  lemma {:induction false} InsertSorted<T(!new)>(t: seq<T>, x: T, cmp: (T, T) -> int, all: seq<T>)
    requires ConsistentOn(cmp, all)
    requires x in all && forall y | y in t :: y in all
    requires SortedBy(cmp, t)
    ensures SortedBy(cmp, Insert(t, x, cmp))
    decreases |t|
  {
    if t != [] {
      var n := |t| - 1;
      var last := t[n];
      assert last in all;
      if cmp(last, x) <= 0 {
        forall i | 0 <= i < n ensures cmp(t[i], x) <= 0 {
          assert t[i] in all;
          assert cmp(t[i], last) <= 0;
        }
        SortedSnoc(t, x, cmp);
      } else {
        assert cmp(x, last) < 0;
        assert forall y | y in t[..n] :: y in t;
        InsertSorted(t[..n], x, cmp, all);
        InsertBeforeLast(t, x, cmp);
      }
    }
  }

  /** With a consistent comparator, the result is in comparator order. */
  lemma {:induction false} SortSorted<T(!new)>(s: seq<T>, cmp: (T, T) -> int)
    requires ConsistentOn(cmp, s)
    ensures SortedBy(cmp, InsertionSort(s, cmp))
    decreases |s|
  {
    if s != [] {
      var init := s[..|s| - 1];
      assert ConsistentOn(cmp, init);
      SortSorted(init, cmp);
      SortPermutes(init, cmp);
      forall y | y in InsertionSort(init, cmp) ensures y in s {
        assert y in multiset(init);
      }
      InsertSorted(InsertionSort(init, cmp), s[|s| - 1], cmp, s);
    }
  }

  /**
   * Insertion lands after the last element that does not compare greater
   * than `x`: when every element from `j` on compares greater and the one
   * before `j` does not, `x` goes at position `j`.
   */
  lemma {:induction false} InsertAt<T>(sorted: seq<T>, x: T, cmp: (T, T) -> int, j: nat)
    requires j <= |sorted| && (j == 0 || cmp(sorted[j - 1], x) <= 0)
    requires forall k | j <= k < |sorted| :: cmp(sorted[k], x) > 0
    ensures Insert(sorted, x, cmp) == sorted[..j] + [x] + sorted[j..]
    decreases |sorted|
  {
    if j < |sorted| {
      var n := |sorted| - 1;
      var init := sorted[..n];
      assert forall k | j <= k < |init| :: init[k] == sorted[k];
      InsertAt(init, x, cmp, j);
      assert init[..j] == sorted[..j];
      assert init[j..] + [sorted[n]] == sorted[j..];
    }
  }

  /** Sorting one more element of the input inserts it into the sorted prefix. */
  lemma SortPrefix<T>(s: seq<T>, cmp: (T, T) -> int, i: nat)
    requires i < |s|
    ensures InsertionSort(s[..i + 1], cmp) == Insert(InsertionSort(s[..i], cmp), s[i], cmp)
  {
    assert s[..i + 1][..i] == s[..i];
  }

  /**
   * The inner loop of a pass: shifts the elements of `a[..i]` that compare
   * greater than `x` one place right, from the back, and returns the gap.
   */
  method ShiftGreater<T>(a: array<T>, i: nat, x: T, cmp: (T, T) -> int) returns (j: nat)
    requires i < a.Length
    modifies a
    ensures j <= i && (j == 0 || cmp(old(a[j - 1]), x) <= 0)
    ensures forall k | j <= k < i :: cmp(old(a[k]), x) > 0
    ensures forall k | 0 <= k < j :: a[k] == old(a[k])
    ensures forall k | j < k <= i :: a[k] == old(a[k - 1])
    ensures forall k | i < k < a.Length :: a[k] == old(a[k])
  {
    j := i;
    while j > 0 && cmp(a[j - 1], x) > 0
      invariant 0 <= j <= i
      invariant forall k | 0 <= k < j :: a[k] == old(a[k])
      invariant forall k | j < k <= i :: a[k] == old(a[k - 1])
      invariant forall k | i < k < a.Length :: a[k] == old(a[k])
      invariant forall k | j <= k < i :: cmp(old(a[k]), x) > 0
    {
      a[j] := a[j - 1];
      j := j - 1;
    }
  }

  /** One pass of the insertion sort: moves `a[i]` into the sorted prefix `a[..i]`. */
  method InsertInPlace<T>(a: array<T>, i: nat, cmp: (T, T) -> int)
    requires i < a.Length
    modifies a
    ensures a[..i + 1] == Insert(old(a[..i]), old(a[i]), cmp)
    ensures forall k | i < k < a.Length :: a[k] == old(a[k])
  {
    ghost var sorted := a[..i];
    var x := a[i];
    var j := ShiftGreater(a, i, x, cmp);
    a[j] := x;
    InsertAt(sorted, x, cmp, j);
    assert forall k | 0 <= k <= i :: a[k] == (sorted[..j] + [x] + sorted[j..])[k];
  }

  /** `a.sort(cmp)`, which reorders the array in place. */
  method SortInPlace<T>(a: array<T>, cmp: (T, T) -> int)
    modifies a
    ensures a[..] == InsertionSort(old(a[..]), cmp)
  {
    ghost var input := a[..];
    var i := 0;
    while i < a.Length
      invariant 0 <= i <= a.Length
      invariant a[..i] == InsertionSort(input[..i], cmp)
      invariant forall k | i <= k < a.Length :: a[k] == input[k]
    {
      InsertInPlace(a, i, cmp);
      SortPrefix(input, cmp, i);
      i := i + 1;
    }
    assert input[..a.Length] == input;
  }
}
