/** Sequence operations the storefront performs with `forEach`, `filter` and
    `Array.from(new Set(...))`, with the facts the pricing and menu models need. */
module Seqs {

  /** Left-to-right sum of `f` over `s`, accumulated in the order `forEach` visits it. */
  function SumOf<T>(s: seq<T>, f: T -> real): real
  {
    if |s| == 0 then 0.0 else SumOf(s[..|s| - 1], f) + f(s[|s| - 1])
  }

  lemma {:induction false} SumOfAppend<T>(a: seq<T>, b: seq<T>, f: T -> real)
    ensures SumOf(a + b, f) == SumOf(a, f) + SumOf(b, f)
    decreases |b|
  {
    if |b| == 0 {
      assert a + b == a;
    } else {
      assert (a + b)[..|a + b| - 1] == a + b[..|b| - 1];
      SumOfAppend(a, b[..|b| - 1], f);
    }
  }

  /** Replacing one element changes the sum by the difference of the two summands. */
  lemma {:induction false} SumOfUpdate<T>(s: seq<T>, k: int, x: T, f: T -> real)
    requires 0 <= k < |s|
    ensures SumOf(s[k := x], f) == SumOf(s, f) - f(s[k]) + f(x)
    decreases |s|
  {
    var n := |s| - 1;
    if k < n {
      assert s[k := x][..n] == s[..n][k := x];
      SumOfUpdate(s[..n], k, x, f);
    } else {
      assert s[k := x][..n] == s[..n];
    }
  }

  /** Sums agree when the summands agree position by position. */
  lemma {:induction false} SumOfPointwise<T, U>(s: seq<T>, f: T -> real, t: seq<U>, g: U -> real)
    requires |s| == |t|
    requires forall i :: 0 <= i < |s| ==> f(s[i]) == g(t[i])
    ensures SumOf(s, f) == SumOf(t, g)
    decreases |s|
  {
    if |s| > 0 {
      SumOfPointwise(s[..|s| - 1], f, t[..|t| - 1], g);
    }
  }

  /** The sum of a pointwise difference is the difference of the sums. */
  lemma {:induction false} SumOfDifference<T>(s: seq<T>, f: T -> real, g: T -> real, h: T -> real)
    requires forall i :: 0 <= i < |s| ==> h(s[i]) == f(s[i]) - g(s[i])
    ensures SumOf(s, h) == SumOf(s, f) - SumOf(s, g)
    decreases |s|
  {
    if |s| > 0 {
      SumOfDifference(s[..|s| - 1], f, g, h);
    }
  }

  /** Pointwise `0 <= g <= f` carries over to the sums. */
  lemma {:induction false} SumOfBetween<T>(s: seq<T>, g: T -> real, f: T -> real)
    requires forall i :: 0 <= i < |s| ==> 0.0 <= g(s[i]) <= f(s[i])
    ensures 0.0 <= SumOf(s, g) <= SumOf(s, f)
    decreases |s|
  {
    if |s| > 0 {
      SumOfBetween(s[..|s| - 1], g, f);
    }
  }

  /** The sum does not depend on the order of the elements. */
  lemma {:induction false} SumOfPermutation<T>(s: seq<T>, t: seq<T>, f: T -> real)
    requires multiset(s) == multiset(t)
    ensures SumOf(s, f) == SumOf(t, f)
    decreases |s|
  {
    assert |s| == |multiset(s)| == |t|;
    if |s| > 0 {
      var x := s[|s| - 1];
      assert x in multiset(t);
      var k :| 0 <= k < |t| && t[k] == x;
      var rest := t[..k] + t[k + 1..];
      assert t == t[..k] + [x] + t[k + 1..];
      assert s == s[..|s| - 1] + [x];
      assert multiset(s) == multiset(s[..|s| - 1]) + multiset{x};
      assert multiset(t) == multiset(t[..k]) + multiset{x} + multiset(t[k + 1..]);
      assert multiset(rest) == multiset(t[..k]) + multiset(t[k + 1..]);
      assert multiset(s[..|s| - 1]) == multiset(s) - multiset{x};
      assert multiset(t) - multiset{x} == multiset(rest);
      SumOfPermutation(s[..|s| - 1], rest, f);
      SumOfAppend(t[..k], t[k + 1..], f);
      SumOfAppend(t[..k] + [x], t[k + 1..], f);
      SumOfAppend(t[..k], [x], f);
      assert SumOf([x], f) == f(x) by {
        assert [x][..0] == [];
      }
    }
  }

  /** `a` is `b` with some elements deleted, the rest kept in their order. */
  predicate IsSubsequence<T(==)>(a: seq<T>, b: seq<T>)
    decreases |b|
  {
    if |a| == 0 then true
    else if |b| == 0 then false
    else if a[0] == b[0] then IsSubsequence(a[1..], b[1..])
    else IsSubsequence(a, b[1..])
  }

  lemma IsSubsequenceReflexive<T>(s: seq<T>)
    ensures IsSubsequence(s, s)
  {
  }

  /** `s.filter(p)`: the elements satisfying `p`, each as often as in `s`, in their order in `s`. */
  function Filter<T(==,!new)>(s: seq<T>, p: T -> bool): (r: seq<T>)
    ensures forall i :: 0 <= i < |r| ==> p(r[i])
    ensures forall x :: multiset(r)[x] == if p(x) then multiset(s)[x] else 0
    ensures IsSubsequence(r, s)
  {
    if |s| == 0 then []
    else
      var rest := Filter(s[1..], p);
      assert s == [s[0]] + s[1..];
      if p(s[0]) then
        assert ([s[0]] + rest)[1..] == rest;
        [s[0]] + rest
      else
        rest
  }

  lemma SumOfPrepend<T>(x: T, s: seq<T>, f: T -> real)
    ensures SumOf([x] + s, f) == f(x) + SumOf(s, f)
  {
    SumOfAppend([x], s, f);
    assert [x][..0] == [];
  }

  /** Splitting `s` by `p` splits its sum. */
  lemma {:induction false} SumOfFilterSplit<T(!new)>(s: seq<T>, p: T -> bool, q: T -> bool, f: T -> real)
    requires forall x :: q(x) == !p(x)
    ensures SumOf(s, f) == SumOf(Filter(s, p), f) + SumOf(Filter(s, q), f)
    decreases |s|
  {
    if |s| > 0 {
      var x, t := s[0], s[1..];
      assert s == [x] + t;
      SumOfFilterSplit(t, p, q, f);
      SumOfPrepend(x, t, f);
      if p(x) {
        assert Filter(s, p) == [x] + Filter(t, p);
        assert Filter(s, q) == Filter(t, q);
        SumOfPrepend(x, Filter(t, p), f);
      } else {
        assert Filter(s, p) == Filter(t, p);
        assert Filter(s, q) == [x] + Filter(t, q);
        SumOfPrepend(x, Filter(t, q), f);
      }
    }
  }

  predicate NoDuplicates<T(==)>(s: seq<T>) {
    forall i, j :: 0 <= i < j < |s| ==> s[i] != s[j]
  }

  /** Position of the first occurrence of `x` in `s`. */
  function FirstIndex<T(==)>(s: seq<T>, x: T): (r: nat)
    requires x in s
    ensures r < |s| && s[r] == x
    ensures forall j :: 0 <= j < r ==> s[j] != x
  {
    if s[0] == x then 0 else 1 + FirstIndex(s[1..], x)
  }

  lemma FirstIndexInPrefix<T>(s: seq<T>, k: nat, x: T)
    requires k <= |s| && x in s[..k]
    ensures FirstIndex(s, x) == FirstIndex(s[..k], x)
  {
    var i, j := FirstIndex(s, x), FirstIndex(s[..k], x);
    assert s[j] == x;
    assert i <= j < k;
    assert s[..k][i] == x;
  }

  /** `Array.from(new Set(s))`: each distinct element of `s` once, in first-occurrence order. */
  function Distinct<T(==,!new)>(s: seq<T>): (r: seq<T>)
    ensures NoDuplicates(r)
    ensures forall x :: x in r <==> x in s
    ensures forall i, j :: 0 <= i < j < |r| ==> FirstIndex(s, r[i]) < FirstIndex(s, r[j])
  {
    if |s| == 0 then []
    else
      var init := s[..|s| - 1];
      var x := s[|s| - 1];
      var d := Distinct(init);
      DistinctStep(s, d);
      if x in d then d else d + [x]
  }

  /** The step of `Distinct` that considers the last element `s[|s| - 1]`. */
  lemma DistinctStep<T>(s: seq<T>, d: seq<T>)
    requires |s| > 0
    requires NoDuplicates(d)
    requires forall y :: y in d <==> y in s[..|s| - 1]
    requires forall i :: 0 <= i < |d| ==> d[i] in s[..|s| - 1]
    requires forall i, j :: 0 <= i < j < |d| ==> FirstIndex(s[..|s| - 1], d[i]) < FirstIndex(s[..|s| - 1], d[j])
    ensures var r := if s[|s| - 1] in d then d else d + [s[|s| - 1]];
      && NoDuplicates(r)
      && (forall y :: y in r <==> y in s)
      && (forall i, j :: 0 <= i < j < |r| ==> FirstIndex(s, r[i]) < FirstIndex(s, r[j]))
  {
    var init, x := s[..|s| - 1], s[|s| - 1];
    assert s == init + [x];
    forall y | y in d ensures FirstIndex(s, y) == FirstIndex(init, y) < |s| - 1 {
      FirstIndexInPrefix(s, |s| - 1, y);
    }
    if x !in d {
      assert FirstIndex(s, x) == |s| - 1;
      var r := d + [x];
      assert forall i :: 0 <= i < |d| ==> r[i] == d[i];
    }
  }
}
