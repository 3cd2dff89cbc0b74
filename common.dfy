/** Shared building blocks of the dashboard model: optional values,
    JavaScript truthiness of text, counting by key, order-preserving
    filtering, the first-seen distinct list (`Array.from(new Set(xs))`),
    `indexOf` and sums. Sequences are peeled from the END so that a loop
    over a growing prefix `s[..i]` extends them one element at a time. */
module Common {

  datatype Option<+T> = None | Some(value: T)

  /** `s || d` on a text value. Absent, null and empty text are all falsy,
      and the model writes all three as "". */
  function Or(s: string, d: string): string
  {
    if s != "" then s else d
  }

  function Last<T>(s: seq<T>): T
    requires |s| > 0
  {
    s[|s| - 1]
  }

  function AllButLast<T>(s: seq<T>): seq<T>
    requires |s| > 0
  {
    s[..|s| - 1]
  }

  predicate NoDup<T(==)>(s: seq<T>)
  {
    forall i, j :: 0 <= i < j < |s| ==> s[i] != s[j]
  }

  // ---------------------------------------------------------------- sums

  function Sum(s: seq<int>): int
  {
    if |s| == 0 then 0 else Sum(AllButLast(s)) + Last(s)
  }

  lemma {:induction false} SumAppend(s: seq<int>, t: seq<int>)
    ensures Sum(s + t) == Sum(s) + Sum(t)
    decreases |t|
  {
    if |t| == 0 {
      assert s + t == s;
    } else {
      assert AllButLast(s + t) == s + AllButLast(t);
      SumAppend(s, AllButLast(t));
    }
  }

  // ------------------------------------------------------------ counting

  /** Number of elements of `s` whose key under `f` is `k`. */
  function CountEq<T, K(==)>(s: seq<T>, f: T -> K, k: K): (n: nat)
    ensures n <= |s|
  {
    if |s| == 0 then 0
    else CountEq(AllButLast(s), f, k) + (if f(Last(s)) == k then 1 else 0)
  }

  /** Number of elements of `s` whose key under `g` is `a` and whose key
      under `h` is `b`: the cell of a two-way tally. */
  function CountEq2<T, A(==), B(==)>(s: seq<T>, g: T -> A, a: A, h: T -> B, b: B): (n: nat)
    ensures n <= CountEq(s, g, a)
  {
    if |s| == 0 then 0
    else CountEq2(AllButLast(s), g, a, h, b)
         + (if g(Last(s)) == a && h(Last(s)) == b then 1 else 0)
  }

  /** Number of elements of `s` whose key under `f` is one of `ks`. */
  function CountIn<T, K(==)>(s: seq<T>, f: T -> K, ks: seq<K>): (n: nat)
    ensures n <= |s|
  {
    if |s| == 0 then 0
    else CountIn(AllButLast(s), f, ks) + (if f(Last(s)) in ks then 1 else 0)
  }

  function CountIn2<T, A(==), B(==)>(s: seq<T>, g: T -> A, a: A, h: T -> B, bs: seq<B>): (n: nat)
    ensures n <= CountEq(s, g, a)
  {
    if |s| == 0 then 0
    else CountIn2(AllButLast(s), g, a, h, bs)
         + (if g(Last(s)) == a && h(Last(s)) in bs then 1 else 0)
  }

  /** The counts of the keys `ks`, added up: the sum of a tally over the
      columns `ks`. */
  function SumCountEq<T, K(==)>(s: seq<T>, f: T -> K, ks: seq<K>): nat
  {
    if |ks| == 0 then 0 else SumCountEq(s, f, AllButLast(ks)) + CountEq(s, f, Last(ks))
  }

  function SumCountEq2<T, A(==), B(==)>(s: seq<T>, g: T -> A, a: A, h: T -> B, bs: seq<B>): nat
  {
    if |bs| == 0 then 0
    else SumCountEq2(s, g, a, h, AllButLast(bs)) + CountEq2(s, g, a, h, Last(bs))
  }

  lemma {:induction false} CountInSnoc<T, K>(s: seq<T>, f: T -> K, ks: seq<K>, k: K)
    requires k !in ks
    ensures CountIn(s, f, ks + [k]) == CountIn(s, f, ks) + CountEq(s, f, k)
    decreases |s|
  {
    if |s| > 0 {
      CountInSnoc(AllButLast(s), f, ks, k);
    }
  }

  lemma {:induction false} CountIn2Snoc<T, A, B>(s: seq<T>, g: T -> A, a: A, h: T -> B, bs: seq<B>, b: B)
    requires b !in bs
    ensures CountIn2(s, g, a, h, bs + [b]) == CountIn2(s, g, a, h, bs) + CountEq2(s, g, a, h, b)
    decreases |s|
  {
    if |s| > 0 {
      CountIn2Snoc(AllButLast(s), g, a, h, bs, b);
    }
  }

  /** Adding up the counts of distinct keys counts every element whose key
      is among them exactly once. */
  lemma {:induction false} SumCountEqIsCountIn<T, K>(s: seq<T>, f: T -> K, ks: seq<K>)
    requires NoDup(ks)
    ensures SumCountEq(s, f, ks) == CountIn(s, f, ks)
    decreases |ks|
  {
    if |ks| == 0 {
      CountInNone(s, f, ks);
    } else {
      var init, k := AllButLast(ks), Last(ks);
      assert ks == init + [k];
      assert NoDup(init);
      SumCountEqIsCountIn(s, f, init);
      CountInSnoc(s, f, init, k);
    }
  }

  lemma {:induction false} SumCountEq2IsCountIn2<T, A, B>(s: seq<T>, g: T -> A, a: A, h: T -> B, bs: seq<B>)
    requires NoDup(bs)
    ensures SumCountEq2(s, g, a, h, bs) == CountIn2(s, g, a, h, bs)
    decreases |bs|
  {
    if |bs| == 0 {
      CountIn2None(s, g, a, h, bs);
    } else {
      var init, b := AllButLast(bs), Last(bs);
      assert bs == init + [b];
      assert NoDup(init);
      SumCountEq2IsCountIn2(s, g, a, h, init);
      CountIn2Snoc(s, g, a, h, init, b);
    }
  }

  lemma {:induction false} CountInNone<T, K>(s: seq<T>, f: T -> K, ks: seq<K>)
    requires |ks| == 0
    ensures CountIn(s, f, ks) == 0
    decreases |s|
  {
    if |s| > 0 {
      CountInNone(AllButLast(s), f, ks);
    }
  }

  lemma {:induction false} CountIn2None<T, A, B>(s: seq<T>, g: T -> A, a: A, h: T -> B, bs: seq<B>)
    requires |bs| == 0
    ensures CountIn2(s, g, a, h, bs) == 0
    decreases |s|
  {
    if |s| > 0 {
      CountIn2None(AllButLast(s), g, a, h, bs);
    }
  }

  /** When every element's key is among `ks`, `CountIn` counts them all. */
  lemma {:induction false} CountInAll<T, K>(s: seq<T>, f: T -> K, ks: seq<K>)
    requires forall i :: 0 <= i < |s| ==> f(s[i]) in ks
    ensures CountIn(s, f, ks) == |s|
    decreases |s|
  {
    if |s| > 0 {
      CountInAll(AllButLast(s), f, ks);
    }
  }

  lemma {:induction false} CountIn2All<T, A, B>(s: seq<T>, g: T -> A, a: A, h: T -> B, bs: seq<B>)
    requires forall i :: 0 <= i < |s| && g(s[i]) == a ==> h(s[i]) in bs
    ensures CountIn2(s, g, a, h, bs) == CountEq(s, g, a)
    decreases |s|
  {
    if |s| > 0 {
      CountIn2All(AllButLast(s), g, a, h, bs);
    }
  }

  /** Summing the tally of distinct keys that cover every element gives
      the length of the input: nothing is lost and nothing is counted twice. */
  lemma SumCountEqCovers<T, K>(s: seq<T>, f: T -> K, ks: seq<K>)
    requires NoDup(ks)
    requires forall i :: 0 <= i < |s| ==> f(s[i]) in ks
    ensures SumCountEq(s, f, ks) == |s|
  {
    SumCountEqIsCountIn(s, f, ks);
    CountInAll(s, f, ks);
  }

  /** Without the covering condition, distinct keys never count more
      elements than there are. */
  lemma SumCountEqAtMost<T, K>(s: seq<T>, f: T -> K, ks: seq<K>)
    requires NoDup(ks)
    ensures SumCountEq(s, f, ks) <= |s|
  {
    SumCountEqIsCountIn(s, f, ks);
  }

  /** Two-way version: within the elements whose `g` key is `a`, distinct
      `h` keys that cover them add up to the number of those elements. */
  lemma SumCountEq2Covers<T, A, B>(s: seq<T>, g: T -> A, a: A, h: T -> B, bs: seq<B>)
    requires NoDup(bs)
    requires forall i :: 0 <= i < |s| && g(s[i]) == a ==> h(s[i]) in bs
    ensures SumCountEq2(s, g, a, h, bs) == CountEq(s, g, a)
  {
    SumCountEq2IsCountIn2(s, g, a, h, bs);
    CountIn2All(s, g, a, h, bs);
  }

  /** A key that no element has is counted zero times. */
  lemma {:induction false} CountEqAbsent<T, K>(s: seq<T>, f: T -> K, k: K)
    requires forall i :: 0 <= i < |s| ==> f(s[i]) != k
    ensures CountEq(s, f, k) == 0
    decreases |s|
  {
    if |s| > 0 {
      CountEqAbsent(AllButLast(s), f, k);
    }
  }

  lemma {:induction false} CountEq2Positive<T, A, B>(s: seq<T>, g: T -> A, a: A, h: T -> B, b: B)
    ensures CountEq2(s, g, a, h, b) > 0
        <==> exists i :: 0 <= i < |s| && g(s[i]) == a && h(s[i]) == b
    decreases |s|
  {
    if |s| > 0 {
      var init := AllButLast(s);
      CountEq2Positive(init, g, a, h, b);
      assert forall i :: 0 <= i < |init| ==> init[i] == s[i];
      if CountEq2(init, g, a, h, b) > 0 {
        var i :| 0 <= i < |init| && g(init[i]) == a && h(init[i]) == b;
        assert g(s[i]) == a && h(s[i]) == b;
      }
    }
  }

  // ----------------------------------------------------- filter and map

  /** `s.filter(p)`: the elements satisfying `p`, in their original order. */
  function Filter<T>(s: seq<T>, p: T -> bool): (r: seq<T>)
    ensures |r| <= |s|
  {
    if |s| == 0 then []
    else Filter(AllButLast(s), p) + (if p(Last(s)) then [Last(s)] else [])
  }

  /** `r` can be obtained from `s` by deleting elements: the relative order
      of what is kept is unchanged. Greedy matching from the end decides it. */
  predicate IsSubsequence<T(==)>(r: seq<T>, s: seq<T>)
    decreases |s|
  {
    if |r| == 0 then true
    else if |s| == 0 then false
    else if Last(r) == Last(s) then IsSubsequence(AllButLast(r), AllButLast(s))
    else IsSubsequence(r, AllButLast(s))
  }

  lemma {:induction false} FilterMembership<T>(s: seq<T>, p: T -> bool, x: T)
    ensures x in Filter(s, p) <==> x in s && p(x)
    decreases |s|
  {
    if |s| > 0 {
      FilterMembership(AllButLast(s), p, x);
      assert s == AllButLast(s) + [Last(s)];
    }
  }

  lemma {:induction false} FilterIsSubsequence<T>(s: seq<T>, p: T -> bool)
    ensures IsSubsequence(Filter(s, p), s)
    decreases |s|
  {
    if |s| > 0 {
      var init := AllButLast(s);
      FilterIsSubsequence(init, p);
      assert s == init + [Last(s)];
      if p(Last(s)) {
        assert Filter(s, p) == Filter(init, p) + [Last(s)];
        assert AllButLast(Filter(s, p)) == Filter(init, p);
      } else {
        assert Filter(s, p) == Filter(init, p);
        SubsequenceOfLonger(Filter(init, p), init, Last(s));
      }
    }
  }

  lemma {:induction false} SubsequenceOfLonger<T>(r: seq<T>, s: seq<T>, x: T)
    requires IsSubsequence(r, s)
    ensures IsSubsequence(r, s + [x])
    decreases |s|, 1
  {
    assert AllButLast(s + [x]) == s;
    if |r| > 0 && Last(r) == x {
      // matched greedily against x: what is left must fit in s
      SubsequenceDropLast(r, s);
    }
  }

  lemma {:induction false} SubsequenceDropLast<T>(r: seq<T>, s: seq<T>)
    requires |r| > 0 && IsSubsequence(r, s)
    ensures IsSubsequence(AllButLast(r), s)
    decreases |s|, 0
  {
    if |s| > 0 {
      if Last(r) == Last(s) {
        SubsequenceOfLonger(AllButLast(r), AllButLast(s), Last(s));
        assert AllButLast(s) + [Last(s)] == s;
      } else {
        SubsequenceDropLast(r, AllButLast(s));
        SubsequenceOfLonger(AllButLast(r), AllButLast(s), Last(s));
        assert AllButLast(s) + [Last(s)] == s;
      }
    }
  }

  /** A filter that keeps everything is the identity. */
  lemma {:induction false} FilterKeepsAll<T>(s: seq<T>, p: T -> bool)
    requires forall i :: 0 <= i < |s| ==> p(s[i])
    ensures Filter(s, p) == s
    decreases |s|
  {
    if |s| > 0 {
      FilterKeepsAll(AllButLast(s), p);
      assert s == AllButLast(s) + [Last(s)];
    }
  }

  // ------------------------------------------------ distinct and indexOf

  /** `Array.from(new Set(s))`: every value of `s` once, in the order of
      its first occurrence. */
  function Distinct<T(==)>(s: seq<T>): seq<T>
  {
    if |s| == 0 then []
    else
      var seen := Distinct(AllButLast(s));
      if Last(s) in seen then seen else seen + [Last(s)]
  }

  /** `s.indexOf(x)`: the first index of `x`, or -1 when it is absent. */
  function IndexOf<T(==)>(s: seq<T>, x: T): (k: int)
    ensures -1 <= k < |s|
    ensures k >= 0 ==> s[k] == x
    ensures k == -1 <==> x !in s
  {
    if |s| == 0 then -1
    else if s[0] == x then 0
    else
      var k := IndexOf(s[1..], x);
      if k < 0 then -1 else k + 1
  }

  lemma {:induction false} DistinctMembership<T>(s: seq<T>, x: T)
    ensures x in Distinct(s) <==> x in s
    decreases |s|
  {
    if |s| > 0 {
      DistinctMembership(AllButLast(s), x);
      assert s == AllButLast(s) + [Last(s)];
    }
  }

  lemma {:induction false} DistinctNoDup<T>(s: seq<T>)
    ensures NoDup(Distinct(s))
    decreases |s|
  {
    if |s| > 0 {
      DistinctNoDup(AllButLast(s));
    }
  }

  /** Nothing before the first occurrence of `x` is `x`. */
  lemma {:induction false} IndexOfIsFirst<T>(s: seq<T>, x: T, i: int)
    requires 0 <= i < |s| && s[i] == x
    ensures 0 <= IndexOf(s, x) <= i
    decreases |s|
  {
    if s[0] != x {
      IndexOfIsFirst(s[1..], x, i - 1);
    }
  }

  lemma {:induction false} IndexOfAppend<T>(s: seq<T>, y: T, x: T)
    requires x in s
    ensures IndexOf(s + [y], x) == IndexOf(s, x)
    decreases |s|
  {
    if s[0] != x {
      assert (s + [y])[1..] == s[1..] + [y];
      IndexOfAppend(s[1..], y, x);
    }
  }

  /** `Distinct(s)` lists its values in increasing order of first
      occurrence in `s`. */
  lemma {:induction false} DistinctFirstSeenOrder<T>(s: seq<T>)
    ensures forall i, j :: 0 <= i < j < |Distinct(s)| ==>
      0 <= IndexOf(s, Distinct(s)[i]) < IndexOf(s, Distinct(s)[j])
    decreases |s|
  {
    if |s| > 0 {
      var init, x := AllButLast(s), Last(s);
      var seen := Distinct(init);
      assert s == init + [x];
      DistinctFirstSeenOrder(init);
      forall v | v in seen
        ensures IndexOf(s, v) == IndexOf(init, v) && 0 <= IndexOf(init, v) < |init|
      {
        DistinctMembership(init, v);
        IndexOfAppend(init, x, v);
      }
      var r := Distinct(s);
      forall i, j | 0 <= i < j < |r|
        ensures 0 <= IndexOf(s, r[i]) < IndexOf(s, r[j])
      {
        assert r[i] == seen[i] && seen[i] in seen;
        if j < |seen| {
          assert r[j] == seen[j] && seen[j] in seen;
        } else {
          DistinctMembership(init, x);
          assert r[j] == x && x !in init;
          IndexOfIsFirst(s, x, |init|);
        }
      }
    } else {
      assert Distinct(s) == [];
    }
  }
}
