/** Sorting as `Array.prototype.sort` does it with a consistent comparator:
    the result is ordered by the comparator and is a permutation of the
    input. `le(x, y)` means "x may come before y", i.e. the comparator
    does not return a positive number for (x, y). Pure call sites (a sort
    of a freshly built array) use the function `InsertionSort`; call sites
    that sort an array they were given, in place, use `SortInPlace`. */
module Sorting {

  ghost predicate TotalPreorder<T(!new)>(le: (T, T) -> bool)
  {
    && (forall x, y :: le(x, y) || le(y, x))
    && (forall x, y, z :: le(x, y) && le(y, z) ==> le(x, z))
  }

  predicate SortedBy<T>(s: seq<T>, le: (T, T) -> bool)
  {
    forall i, j :: 0 <= i < j < |s| ==> le(s[i], s[j])
  }

  /** Inserts `x` before the first element it may precede. */
  function Insert<T>(x: T, s: seq<T>, le: (T, T) -> bool): (r: seq<T>)
    ensures multiset(r) == multiset(s) + multiset{x}
    ensures |r| == |s| + 1
  {
    if |s| == 0 then [x]
    else if le(x, s[0]) then [x] + s
    else
      assert s == [s[0]] + s[1..];
      [s[0]] + Insert(x, s[1..], le)
  }

  function InsertionSort<T>(s: seq<T>, le: (T, T) -> bool): (r: seq<T>)
    ensures multiset(r) == multiset(s)
    ensures |r| == |s|
  {
    if |s| == 0 then []
    else
      assert s == [s[0]] + s[1..];
      Insert(s[0], InsertionSort(s[1..], le), le)
  }

  /** A sorted sequence stays sorted behind an element that may precede
      all of it. */
  lemma ConsSorted<T>(y: T, s: seq<T>, le: (T, T) -> bool)
    requires SortedBy(s, le)
    requires forall k :: 0 <= k < |s| ==> le(y, s[k])
    ensures SortedBy([y] + s, le)
  {
    var r := [y] + s;
    forall i, j | 0 <= i < j < |r|
      ensures le(r[i], r[j])
    {
      assert r[j] == s[j - 1];
      if i > 0 {
        assert r[i] == s[i - 1];
      }
    }
  }

  /** An element that may precede `x` and all of `s` may precede all of
      `Insert(x, s)`. */
  lemma {:induction false} InsertLowerBound<T>(y: T, x: T, s: seq<T>, le: (T, T) -> bool)
    requires le(y, x)
    requires forall k :: 0 <= k < |s| ==> le(y, s[k])
    ensures forall k :: 0 <= k < |Insert(x, s, le)| ==> le(y, Insert(x, s, le)[k])
    decreases |s|
  {
    var r := Insert(x, s, le);
    if |s| == 0 {
      assert r == [x];
    } else if le(x, s[0]) {
      assert r == [x] + s;
      forall k | 0 <= k < |r|
        ensures le(y, r[k])
      {
        if k > 0 {
          assert r[k] == s[k - 1];
        }
      }
    } else {
      var ins := Insert(x, s[1..], le);
      InsertLowerBound(y, x, s[1..], le);
      assert r == [s[0]] + ins;
      forall k | 0 <= k < |r|
        ensures le(y, r[k])
      {
        if k > 0 {
          assert r[k] == ins[k - 1];
        }
      }
    }
  }

  lemma {:induction false} InsertSorted<T(!new)>(x: T, s: seq<T>, le: (T, T) -> bool)
    requires TotalPreorder(le)
    requires SortedBy(s, le)
    ensures SortedBy(Insert(x, s, le), le)
    decreases |s|
  {
    if |s| == 0 {
      assert Insert(x, s, le) == [x];
    } else if le(x, s[0]) {
      forall k | 0 <= k < |s|
        ensures le(x, s[k])
      {
        if k > 0 {
          assert le(s[0], s[k]);
        }
      }
      ConsSorted(x, s, le);
      assert Insert(x, s, le) == [x] + s;
    } else {
      var tail := s[1..];
      InsertSorted(x, tail, le);
      assert le(s[0], x);
      forall k | 0 <= k < |tail|
        ensures le(s[0], tail[k])
      {
        assert tail[k] == s[k + 1];
      }
      InsertLowerBound(s[0], x, tail, le);
      ConsSorted(s[0], Insert(x, tail, le), le);
      assert Insert(x, s, le) == [s[0]] + Insert(x, tail, le);
    }
  }

  lemma {:induction false} InsertionSortSorted<T(!new)>(s: seq<T>, le: (T, T) -> bool)
    requires TotalPreorder(le)
    ensures SortedBy(InsertionSort(s, le), le)
    decreases |s|
  {
    if |s| > 0 {
      InsertionSortSorted(s[1..], le);
      InsertSorted(s[0], InsertionSort(s[1..], le), le);
    }
  }

  /** What every sort of this dashboard promises: ordered and a permutation. */
  ghost predicate IsSortingOf<T(!new)>(r: seq<T>, s: seq<T>, le: (T, T) -> bool)
  {
    SortedBy(r, le) && multiset(r) == multiset(s)
  }

  lemma InsertionSortIsSorting<T(!new)>(s: seq<T>, le: (T, T) -> bool)
    requires TotalPreorder(le)
    ensures IsSortingOf(InsertionSort(s, le), s, le)
  {
    InsertionSortSorted(s, le);
  }

  /** Inserting past elements that `x` may not precede keeps them in front. */
  lemma {:induction false} InsertSkips<T>(x: T, u: seq<T>, v: seq<T>, le: (T, T) -> bool)
    requires forall k :: 0 <= k < |u| ==> !le(x, u[k])
    ensures Insert(x, u + v, le) == u + Insert(x, v, le)
    decreases |u|
  {
    if |u| > 0 {
      assert (u + v)[0] == u[0] && (u + v)[1..] == u[1..] + v;
      InsertSkips(x, u[1..], v, le);
      calc {
        Insert(x, u + v, le);
        [u[0]] + Insert(x, u[1..] + v, le);
        [u[0]] + (u[1..] + Insert(x, v, le));
        { assert u == [u[0]] + u[1..]; }
        u + Insert(x, v, le);
      }
    } else {
      assert u + v == v;
    }
  }

  /** The array after one sink, read as sequences: `x = s[i]` has moved
      from `i` to `j` past `s[i + 1..j + 1]`, and stops before an element
      it may precede or at the end. That is inserting `x` into `s[i + 1..]`. */
  lemma SinkResult<T>(s: seq<T>, c: seq<T>, i: int, j: int, le: (T, T) -> bool)
    requires 0 <= i <= j < |s| == |c|
    requires forall k :: i <= k < j ==> c[k] == s[k + 1]
    requires forall k :: i < k <= j ==> !le(s[i], s[k])
    requires c[j] == s[i]
    requires forall k :: j < k < |s| ==> c[k] == s[k]
    requires j + 1 == |s| || le(s[i], s[j + 1])
    ensures c[i..] == Insert(s[i], s[i + 1..], le)
  {
    var x, u, v := s[i], s[i + 1..j + 1], s[j + 1..];
    assert s[i + 1..] == u + v;
    forall k | 0 <= k < |u|
      ensures !le(x, u[k])
    {
      assert u[k] == s[i + k + 1] && i < i + k + 1 <= j;
    }
    InsertSkips(x, u, v, le);
    InsertStops(x, v, le);
    SinkShape(s, c, i, j);
  }

  /** Where the elements are after a sink from `i` to `j`. */
  lemma SinkShape<T>(s: seq<T>, c: seq<T>, i: int, j: int)
    requires 0 <= i <= j < |s| == |c|
    requires forall k :: i <= k < j ==> c[k] == s[k + 1]
    requires c[j] == s[i]
    requires forall k :: j < k < |s| ==> c[k] == s[k]
    ensures c[i..] == s[i + 1..j + 1] + [s[i]] + s[j + 1..]
  {
    var w := s[i + 1..j + 1] + [s[i]] + s[j + 1..];
    assert |c[i..]| == |w|;
    forall k | 0 <= k < |w|
      ensures c[i..][k] == w[k]
    {
      if k < j - i {
        assert c[i + k] == s[i + k + 1];
      } else if k > j - i {
        assert c[i + k] == s[i + k];
      }
    }
  }

  /** `x` stops in front of a suffix it may precede. */
  lemma InsertStops<T>(x: T, v: seq<T>, le: (T, T) -> bool)
    requires |v| == 0 || le(x, v[0])
    ensures Insert(x, v, le) == [x] + v
  {
  }

  /** One step of the outer loop, read as sequences: sinking `s[i]` into
      the sorted suffix gives the sorted suffix from `i`. */
  lemma SortStep<T>(s: seq<T>, b: seq<T>, c: seq<T>, i: int, le: (T, T) -> bool)
    requires 0 <= i < |s| == |b| == |c|
    requires b[i] == s[i] && b[i + 1..] == InsertionSort(s[i + 1..], le)
    requires c[i..] == Insert(b[i], b[i + 1..], le)
    ensures c[i..] == InsertionSort(s[i..], le)
  {
    assert s[i..][0] == s[i] && s[i..][1..] == s[i + 1..];
  }

  /** One insertion step: `a[i]` moves right past every element it may
      not precede, which is inserting it into `a[i + 1..]`. */
  method SinkRight<T>(a: array<T>, i: int, le: (T, T) -> bool)
    requires 0 <= i < a.Length
    modifies a
    ensures forall k :: 0 <= k < i ==> a[k] == old(a[k])
    ensures a[..][i..] == Insert(old(a[i]), old(a[..])[i + 1..], le)
  {
    ghost var s := a[..];
    var x := a[i];
    var j := i;
    while j + 1 < a.Length && !le(x, a[j + 1])
      invariant i <= j < a.Length
      invariant forall k :: 0 <= k < i ==> a[k] == s[k]
      invariant forall k :: i <= k < j ==> a[k] == s[k + 1]
      invariant forall k :: i < k <= j ==> !le(x, s[k])
      invariant a[j] == x
      invariant forall k :: j < k < a.Length ==> a[k] == s[k]
      decreases a.Length - j
    {
      assert a[j + 1] == s[j + 1];
      a[j], a[j + 1] := a[j + 1], a[j];
      j := j + 1;
    }
    SinkResult(s, a[..], i, j, le);
  }

  /** Sorts `a` in place, by insertion from the right, as
      `Array.prototype.sort` does with a consistent comparator. The result
      is exactly `InsertionSort` of the old contents, which keeps equal
      elements in their original order. */
  method SortInPlace<T(!new)>(a: array<T>, le: (T, T) -> bool)
    requires TotalPreorder(le)
    modifies a
    ensures a[..] == InsertionSort(old(a[..]), le)
    ensures IsSortingOf(a[..], old(a[..]), le)
  {
    ghost var s := a[..];
    var i := a.Length;
    while i > 0
      invariant 0 <= i <= a.Length
      invariant forall k :: 0 <= k < i ==> a[k] == s[k]
      invariant a[..][i..] == InsertionSort(s[i..], le)
    {
      i := i - 1;
      ghost var b := a[..];
      SinkRight(a, i, le);
      SortStep(s, b, a[..], i, le);
    }
    assert a[..] == a[..][0..] && s == s[0..];
    InsertionSortIsSorting(s, le);
  }
}
