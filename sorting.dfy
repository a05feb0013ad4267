/**
 * Sorting with a JavaScript comparator, as `Array.prototype.sort(cmp)` does it:
 * `cmp(a, b) > 0` puts `b` before `a`, anything else keeps their input order
 * (the sort is stable). The database's `ORDER BY` is modelled with the same
 * stable sort over the table order.
 *
 * `Sort` is the specification: an insertion sort that takes the elements in
 * input order and moves each one left past the elements it must precede.
 * `SortInPlace` is that algorithm on an array.
 */
module Sorting {
  import opened Base

  /** `cmp` puts the sequence in order: no later element must precede an earlier one. */
  ghost predicate Sorted<T>(s: seq<T>, cmp: (T, T) -> int) {
    forall i, j :: 0 <= i < j < |s| ==> cmp(s[i], s[j]) <= 0
  }

  /** A consistent comparator: "may come first" is total and transitive. */
  ghost predicate TotalPreorder<T(!new)>(cmp: (T, T) -> int) {
    (forall a, b :: cmp(a, b) <= 0 || cmp(b, a) <= 0) &&
    (forall a, b, c :: cmp(a, b) <= 0 && cmp(b, c) <= 0 ==> cmp(a, c) <= 0)
  }

  /** Inserts `x` after the last element of `s` that does not have to follow it. */
  function Insert<T>(s: seq<T>, x: T, cmp: (T, T) -> int): (r: seq<T>)
    ensures |r| == |s| + 1
  {
    if s == [] then [x]
    else if cmp(s[|s| - 1], x) > 0 then Insert(s[..|s| - 1], x, cmp) + [s[|s| - 1]]
    else s + [x]
  }

  /** Inserting adds exactly the one element. */
  lemma {:induction false} InsertPermutes<T>(s: seq<T>, x: T, cmp: (T, T) -> int)
    ensures multiset(Insert(s, x, cmp)) == multiset(s) + multiset{x}
  {
    if s != [] && cmp(s[|s| - 1], x) > 0 {
      InsertPermutes(s[..|s| - 1], x, cmp);
      assert s == s[..|s| - 1] + [s[|s| - 1]];
    }
  }

  /** The stable sort of `s` under `cmp`. */
  function Sort<T>(s: seq<T>, cmp: (T, T) -> int): (r: seq<T>)
    ensures |r| == |s|
  {
    if s == [] then [] else Insert(Sort(s[..|s| - 1], cmp), s[|s| - 1], cmp)
  }

  /** Sorting only reorders: the result is a permutation of the input. */
  lemma {:induction false} SortPermutes<T>(s: seq<T>, cmp: (T, T) -> int)
    ensures multiset(Sort(s, cmp)) == multiset(s)
  {
    if s != [] {
      SortPermutes(s[..|s| - 1], cmp);
      InsertPermutes(Sort(s[..|s| - 1], cmp), s[|s| - 1], cmp);
      assert s == s[..|s| - 1] + [s[|s| - 1]];
    }
  }

  /** Where `Insert` puts `x`: after the prefix that may precede it, before the rest. */
  lemma {:induction false} InsertAt<T>(s: seq<T>, x: T, cmp: (T, T) -> int, j: nat)
    requires j <= |s|
    requires j == 0 || cmp(s[j - 1], x) <= 0
    requires forall k :: j <= k < |s| ==> cmp(s[k], x) > 0
    ensures Insert(s, x, cmp) == s[..j] + [x] + s[j..]
    decreases |s|
  {
    if j < |s| {
      var init, last := s[..|s| - 1], s[|s| - 1];
      assert cmp(last, x) > 0;
      assert Insert(s, x, cmp) == Insert(init, x, cmp) + [last];
      InsertAt(init, x, cmp, j);
      assert init[..j] == s[..j];
      assert s[j..] == init[j..] + [last];
    }
  }

  /** Under a consistent comparator, inserting into a sorted sequence keeps it sorted. */
  lemma {:induction false} InsertSorted<T(!new)>(s: seq<T>, x: T, cmp: (T, T) -> int)
    requires TotalPreorder(cmp)
    requires Sorted(s, cmp)
    ensures Sorted(Insert(s, x, cmp), cmp)
    decreases |s|
  {
    if s == [] {
    } else if cmp(s[|s| - 1], x) > 0 {
      var init, last := s[..|s| - 1], s[|s| - 1];
      InsertSorted(init, x, cmp);
      var r := Insert(init, x, cmp);
      forall k | 0 <= k < |init| ensures cmp(init[k], last) <= 0 {
        assert init[k] == s[k];
      }
      assert cmp(x, last) <= 0;
      InsertBelow(init, x, cmp, last);
      AppendSorted(r, last, cmp);
    } else {
      forall i | 0 <= i < |s| ensures cmp(s[i], x) <= 0 {
        if i < |s| - 1 {
          assert cmp(s[i], s[|s| - 1]) <= 0;
        }
      }
      AppendSorted(s, x, cmp);
    }
  }

  /** When `x` and every element of `s` may precede `y`, so may every element after inserting `x`. */
  lemma {:induction false} InsertBelow<T>(s: seq<T>, x: T, cmp: (T, T) -> int, y: T)
    requires forall k :: 0 <= k < |s| ==> cmp(s[k], y) <= 0
    requires cmp(x, y) <= 0
    ensures forall k :: 0 <= k < |Insert(s, x, cmp)| ==> cmp(Insert(s, x, cmp)[k], y) <= 0
    decreases |s|
  {
    if s != [] && cmp(s[|s| - 1], x) > 0 {
      var init := s[..|s| - 1];
      forall k | 0 <= k < |init| ensures cmp(init[k], y) <= 0 {
        assert init[k] == s[k];
      }
      InsertBelow(init, x, cmp, y);
      var r := Insert(init, x, cmp);
      var t := Insert(s, x, cmp);
      assert t == r + [s[|s| - 1]];
      forall k | 0 <= k < |t| ensures cmp(t[k], y) <= 0 {
        if k < |r| {
          assert t[k] == r[k];
        }
      }
    } else if s != [] {
      var t := s + [x];
      forall k | 0 <= k < |t| ensures cmp(t[k], y) <= 0 {
        if k < |s| {
          assert t[k] == s[k];
        }
      }
    }
  }

  /** A sorted sequence stays sorted when an element every member may precede is appended. */
  lemma AppendSorted<T>(s: seq<T>, x: T, cmp: (T, T) -> int)
    requires Sorted(s, cmp)
    requires forall i :: 0 <= i < |s| ==> cmp(s[i], x) <= 0
    ensures Sorted(s + [x], cmp)
  {
    var t := s + [x];
    forall i, j | 0 <= i < j < |t| ensures cmp(t[i], t[j]) <= 0 {
      assert t[i] == s[i];
      if j < |s| {
        assert t[j] == s[j];
      }
    }
  }

  /** Under a consistent comparator the sort puts its input in order. */
  lemma {:induction false} SortSorted<T(!new)>(s: seq<T>, cmp: (T, T) -> int)
    requires TotalPreorder(cmp)
    ensures Sorted(Sort(s, cmp), cmp)
  {
    if s != [] {
      SortSorted(s[..|s| - 1], cmp);
      InsertSorted(Sort(s[..|s| - 1], cmp), s[|s| - 1], cmp);
    }
  }

  /** A sequence already in order is left exactly as it is. */
  lemma {:induction false} SortKeepsSorted<T>(s: seq<T>, cmp: (T, T) -> int)
    requires Sorted(s, cmp)
    ensures Sort(s, cmp) == s
  {
    if s != [] {
      var init := s[..|s| - 1];
      assert Sorted(init, cmp);
      SortKeepsSorted(init, cmp);
      InsertAt(init, s[|s| - 1], cmp, |init|);
      assert s == init + [s[|s| - 1]];
    }
  }

  /**
   * Inserting keeps the elements `p` selects in their order, when `cmp`
   * never makes one of them precede another.
   */
  lemma {:induction false} InsertFilter<T>(s: seq<T>, x: T, cmp: (T, T) -> int, p: T -> bool)
    requires forall a, b :: p(a) && p(b) ==> cmp(a, b) <= 0
    ensures Filter(Insert(s, x, cmp), p) == Filter(s, p) + (if p(x) then [x] else [])
  {
    if s == [] {
      assert [x][..0] == [];
    } else if cmp(s[|s| - 1], x) > 0 {
      var init, last := s[..|s| - 1], s[|s| - 1];
      var r := Insert(init, x, cmp);
      InsertFilter(init, x, cmp, p);
      assert (r + [last])[..|r|] == r;
      assert !(p(x) && p(last));
      AppendAssoc(Filter(init, p), if p(x) then [x] else [], if p(last) then [last] else []);
      AppendAssoc(Filter(init, p), if p(last) then [last] else [], if p(x) then [x] else []);
    } else {
      assert (s + [x])[..|s|] == s;
    }
  }

  /** Sorting keeps the elements `p` selects in their input order, when `cmp` ties all of them. */
  lemma {:induction false} SortFilter<T>(s: seq<T>, cmp: (T, T) -> int, p: T -> bool)
    requires forall a, b :: p(a) && p(b) ==> cmp(a, b) <= 0
    ensures Filter(Sort(s, cmp), p) == Filter(s, p)
  {
    if s != [] {
      SortFilter(s[..|s| - 1], cmp, p);
      InsertFilter(Sort(s[..|s| - 1], cmp), s[|s| - 1], cmp, p);
    }
  }

  /** Sorting twice gives the same order as sorting once. */
  lemma SortIdempotent<T(!new)>(s: seq<T>, cmp: (T, T) -> int)
    requires TotalPreorder(cmp)
    ensures Sort(Sort(s, cmp), cmp) == Sort(s, cmp)
  {
    SortSorted(s, cmp);
    SortKeepsSorted(Sort(s, cmp), cmp);
  }

  /**
   * Insertion sort in place: each element is lifted out and the elements it
   * must precede are shifted one place right.
   */
  method SortInPlace<T>(a: array<T>, cmp: (T, T) -> int)
    modifies a
    ensures a[..] == Sort(old(a[..]), cmp)
  {
    ghost var input := a[..];
    var i := 0;
    while i < a.Length
      invariant 0 <= i <= a.Length
      invariant a[..i] == Sort(input[..i], cmp)
      invariant a[i..] == input[i..]
    {
      ghost var rest := a[i..];
      assert a[i] == rest[0] == input[i];
      assert input[..i + 1][..i] == input[..i];
      assert Sort(input[..i + 1], cmp) == Insert(Sort(input[..i], cmp), input[i], cmp);
      InsertLast(a, i, cmp);
      assert a[i + 1..] == rest[1..] == input[i + 1..];
      i := i + 1;
    }
    assert input[..a.Length] == input;
  }

  /** One step of `SortInPlace`: moves `a[i]` into place within `a[..i + 1]`. */
  method InsertLast<T>(a: array<T>, i: nat, cmp: (T, T) -> int)
    requires i < a.Length
    modifies a
    ensures a[..i + 1] == Insert(old(a[..i]), old(a[i]), cmp)
    ensures a[i + 1..] == old(a[i + 1..])
  {
    ghost var sorted := a[..i];
    var x := a[i];
    var j := i;
    while j > 0 && cmp(a[j - 1], x) > 0
      invariant 0 <= j <= i
      invariant forall k :: 0 <= k < j ==> a[k] == sorted[k]
      invariant forall k :: j < k <= i ==> a[k] == sorted[k - 1]
      invariant forall k :: j <= k < i ==> cmp(sorted[k], x) > 0
      invariant forall k :: i < k < a.Length ==> a[k] == old(a[k])
    {
      a[j] := a[j - 1];
      j := j - 1;
    }
    a[j] := x;
    InsertAt(sorted, x, cmp, j);
    ghost var want := sorted[..j] + [x] + sorted[j..];
    assert forall k :: 0 <= k <= i ==> a[k] == want[k];
    assert a[..i + 1] == want;
  }

  /** `(a, b) => key(b) - key(a)`: largest key first, as `ORDER BY key DESC`. */
  function Descending<T>(key: T -> int): (T, T) -> int {
    (a, b) => key(b) - key(a)
  }

  /** `(a, b) => key(a) - key(b)`: smallest key first, as `ORDER BY key ASC`. */
  function Ascending<T>(key: T -> int): (T, T) -> int {
    (a, b) => key(a) - key(b)
  }

  /** Ordering by a key in either direction is a consistent comparator. */
  lemma KeyOrderConsistent<T(!new)>(key: T -> int)
    ensures TotalPreorder(Descending(key)) && TotalPreorder(Ascending(key))
  {
  }

  /** Sorting by `Descending(key)` lists the largest keys first and keeps every element. */
  lemma SortDescending<T(!new)>(s: seq<T>, key: T -> int)
    ensures multiset(Sort(s, Descending(key))) == multiset(s)
    ensures forall i, j :: 0 <= i < j < |s| ==> key(Sort(s, Descending(key))[i]) >= key(Sort(s, Descending(key))[j])
  {
    KeyOrderConsistent(key);
    SortSorted(s, Descending(key));
    SortPermutes(s, Descending(key));
  }

  /** Sorting by `Ascending(key)` lists the smallest keys first and keeps every element. */
  lemma SortAscending<T(!new)>(s: seq<T>, key: T -> int)
    ensures multiset(Sort(s, Ascending(key))) == multiset(s)
    ensures forall i, j :: 0 <= i < j < |s| ==> key(Sort(s, Ascending(key))[i]) <= key(Sort(s, Ascending(key))[j])
  {
    KeyOrderConsistent(key);
    SortSorted(s, Ascending(key));
    SortPermutes(s, Ascending(key));
  }

  /** The elements whose key is `k`. */
  function HasKey<T>(key: T -> int, k: int): T -> bool {
    x => key(x) == k
  }

  /**
   * The sort is stable: ordering by a key, in either direction, keeps the
   * elements that share a key value in their input order.
   */
  lemma SortStable<T>(s: seq<T>, key: T -> int, k: int)
    ensures Filter(Sort(s, Descending(key)), HasKey(key, k)) == Filter(s, HasKey(key, k))
    ensures Filter(Sort(s, Ascending(key)), HasKey(key, k)) == Filter(s, HasKey(key, k))
  {
    SortFilter(s, Descending(key), HasKey(key, k));
    SortFilter(s, Ascending(key), HasKey(key, k));
  }
}
