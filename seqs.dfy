/** Sequence helpers shared by the frontend lists and the backend tables: order-preserving
    filtering, counting, sums and NaN-skipping means. */
module Seqs {
  import opened Wrappers

  /** `a` is `b` with some elements removed, order kept. */
  predicate IsSubseq<T(==)>(a: seq<T>, b: seq<T>)
    decreases |b|
  {
    a == [] || (b != [] && ((a[0] == b[0] && IsSubseq(a[1..], b[1..])) || IsSubseq(a, b[1..])))
  }

  /** Every sequence is a subsequence of itself. */
  lemma {:induction false} SubseqRefl<T>(s: seq<T>)
    ensures IsSubseq(s, s)
    decreases |s|
  {
    if s != [] {
      SubseqRefl(s[1..]);
    }
  }

  /** `s.filter(p)` (JavaScript) / a boolean mask (pandas): the elements satisfying `p`,
      in their original order. */
  function Filter<T>(s: seq<T>, p: T -> bool): (r: seq<T>)
    ensures |r| <= |s|
    ensures forall i :: 0 <= i < |r| ==> p(r[i])
    ensures forall i :: 0 <= i < |r| ==> r[i] in s
    ensures forall i :: 0 <= i < |s| && p(s[i]) ==> s[i] in r
  {
    if s == [] then [] else (if p(s[0]) then [s[0]] else []) + Filter(s[1..], p)
  }

  /** The filtered list is an order-preserving subsequence of the input. */
  lemma {:induction false} FilterIsSubseq<T>(s: seq<T>, p: T -> bool)
    ensures IsSubseq(Filter(s, p), s)
  {
    if s != [] {
      FilterIsSubseq(s[1..], p);
      var r := Filter(s, p);
      if p(s[0]) {
        assert r[0] == s[0] && r[1..] == Filter(s[1..], p);
      } else {
        assert r == Filter(s[1..], p);
        if r != [] {
          assert IsSubseq(r, s[1..]);
        }
      }
    }
  }

  /** A predicate every element satisfies keeps the whole list. */
  lemma {:induction false} FilterAll<T>(s: seq<T>, p: T -> bool)
    requires forall i :: 0 <= i < |s| ==> p(s[i])
    ensures Filter(s, p) == s
  {
    if s != [] {
      FilterAll(s[1..], p);
    }
  }

  /** Filtering distributes over concatenation. */
  lemma {:induction false} FilterAppend<T>(a: seq<T>, b: seq<T>, p: T -> bool)
    ensures Filter(a + b, p) == Filter(a, p) + Filter(b, p)
  {
    if a == [] {
      assert a + b == b;
    } else {
      assert (a + b)[1..] == a[1..] + b;
      FilterAppend(a[1..], b, p);
    }
  }

  /** Each image of a filtered element is the image of an element satisfying `p`. */
  lemma MappedFilterSound<T, U>(s: seq<T>, p: T -> bool, f: T -> U, bs: seq<U>)
    requires |bs| == |Filter(s, p)| && forall k :: 0 <= k < |bs| ==> bs[k] == f(Filter(s, p)[k])
    ensures forall k :: 0 <= k < |bs| ==> exists j :: 0 <= j < |s| && p(s[j]) && bs[k] == f(s[j])
  {
    var r := Filter(s, p);
    forall k | 0 <= k < |bs| ensures exists j :: 0 <= j < |s| && p(s[j]) && bs[k] == f(s[j]) {
      assert r[k] in s;
      var j :| 0 <= j < |s| && s[j] == r[k];
    }
  }

  /** Each element satisfying `p` has its image among the images of the filtered list. */
  lemma MappedFilterComplete<T, U>(s: seq<T>, p: T -> bool, f: T -> U, bs: seq<U>)
    requires |bs| == |Filter(s, p)| && forall k :: 0 <= k < |bs| ==> bs[k] == f(Filter(s, p)[k])
    ensures forall j :: 0 <= j < |s| && p(s[j]) ==> f(s[j]) in bs
  {
    var r := Filter(s, p);
    forall j | 0 <= j < |s| && p(s[j]) ensures f(s[j]) in bs {
      assert s[j] in r;
      var k :| 0 <= k < |r| && r[k] == s[j];
      assert bs[k] == f(s[j]);
    }
  }

  /** Number of elements satisfying `p` (`s.filter(p).length`, a mask's `sum()`). */
  function Count<T>(s: seq<T>, p: T -> bool): (n: nat)
    ensures n <= |s|
  {
    |Filter(s, p)|
  }

  lemma CountCons<T>(s: seq<T>, p: T -> bool)
    requires s != []
    ensures Count(s, p) == (if p(s[0]) then 1 else 0) + Count(s[1..], p)
  {
  }

  /** Elements that satisfy two exclusive predicates are counted once in total. */
  lemma {:induction false} CountDisjoint<T>(s: seq<T>, p: T -> bool, q: T -> bool)
    requires forall i :: 0 <= i < |s| ==> !(p(s[i]) && q(s[i]))
    ensures Count(s, p) + Count(s, q) == Count(s, x => p(x) || q(x))
    ensures Count(s, p) + Count(s, q) <= |s|
  {
    if s != [] {
      CountDisjoint(s[1..], p, q);
    }
  }

  /** Sum of `f` over the elements (`reduce((a, x) => a + f(x), 0)`). */
  function SumOf<T>(s: seq<T>, f: T -> real): real {
    if s == [] then 0.0 else f(s[0]) + SumOf(s[1..], f)
  }

  lemma {:induction false} SumOfAppend<T>(a: seq<T>, b: seq<T>, f: T -> real)
    ensures SumOf(a + b, f) == SumOf(a, f) + SumOf(b, f)
  {
    if a == [] {
      assert a + b == b;
    } else {
      assert (a + b)[1..] == a[1..] + b;
      SumOfAppend(a[1..], b, f);
    }
  }

  /** Removing the element at `i` removes one copy from the multiset. */
  lemma RemoveAtMultiset<T>(t: seq<T>, i: nat)
    requires i < |t|
    ensures multiset(t[..i] + t[i + 1..]) == multiset(t) - multiset{t[i]}
  {
    var front, rest := t[..i], t[i + 1..];
    assert t == front + [t[i]] + rest;
  }

  /** Removing the element at `i` removes one term from the sum. */
  lemma RemoveAtSum<T>(t: seq<T>, i: nat, f: T -> real)
    requires i < |t|
    ensures SumOf(t, f) == f(t[i]) + SumOf(t[..i] + t[i + 1..], f)
  {
    var front, mid, rest := t[..i], t[i..], t[i + 1..];
    assert t == front + mid;
    assert mid[1..] == rest;
    SumOfAppend(front, mid, f);
    SumOfAppend(front, rest, f);
  }

  /** A sum does not depend on the order of its terms. */
  lemma {:induction false} SumOfPermutation<T>(s: seq<T>, t: seq<T>, f: T -> real)
    requires multiset(s) == multiset(t)
    ensures SumOf(s, f) == SumOf(t, f)
    decreases |s|
  {
    if s != [] {
      assert s[0] in multiset(t);
      var i :| 0 <= i < |t| && t[i] == s[0];
      RemoveAtMultiset(t, i);
      RemoveAtSum(t, i, f);
      assert s == [s[0]] + s[1..];
      assert multiset(s[1..]) == multiset(s) - multiset{s[0]};
      SumOfPermutation(s[1..], t[..i] + t[i + 1..], f);
    }
  }

  /** `Math.abs` / Python `abs`. */
  function Abs(v: real): (r: real)
    ensures r >= 0.0 && (r == v || r == -v)
  {
    if v < 0.0 then -v else v
  }

  /** A number JavaScript treats as true: present (not `null`, `undefined` or NaN) and not
      zero. */
  predicate TruthyNumber(v: Option<real>) {
    v.Some? && v.value != 0.0
  }

  /** Sum of a list of reals. */
  function Sum(s: seq<real>): real {
    SumOf(s, x => x)
  }

  /** The present values of a column with NaN cells. */
  function Present(s: seq<Option<real>>): (r: seq<real>)
    ensures |r| <= |s|
    ensures forall x :: x in r <==> Some(x) in s
  {
    if s == [] then []
    else (if s[0].Some? then [s[0].value] else []) + Present(s[1..])
  }

  /** A NaN cell appended to a column adds no present value. */
  lemma {:induction false} PresentAppendNaN(s: seq<Option<real>>)
    ensures Present(s + [None]) == Present(s)
  {
    if s == [] {
      var tail: seq<Option<real>> := [None];
      assert tail[1..] == [];
    } else {
      assert (s + [None])[1..] == s[1..] + [None];
      PresentAppendNaN(s[1..]);
    }
  }

  /** pandas `Series.mean()`: the mean of the non-NaN cells, NaN (`None`) when there are
      none. */
  function MeanSkipNaN(s: seq<Option<real>>): (r: Option<real>)
    ensures r.None? <==> Present(s) == []
  {
    var p := Present(s);
    if p == [] then None else Some(Sum(p) / |p| as real)
  }

  /** pandas `Series.sum()`: NaN cells are skipped and an empty sum is 0. */
  function SumSkipNaN(s: seq<Option<real>>): real {
    Sum(Present(s))
  }

  /** A mean lies between the smallest and the largest present value. */
  lemma {:induction false} MeanBounds(s: seq<Option<real>>, lo: real, hi: real)
    requires forall i :: 0 <= i < |s| && s[i].Some? ==> lo <= s[i].value <= hi
    ensures MeanSkipNaN(s).Some? ==> lo <= MeanSkipNaN(s).value <= hi
  {
    var p := Present(s);
    forall x | x in p ensures lo <= x <= hi {
      assert Some(x) in s;
    }
    SumBounds(p, lo, hi);
    if p != [] {
      QuotientBounds(Sum(p), |p| as real, lo, hi);
    }
  }

  /** A total between `n * lo` and `n * hi` shared among `n` gives a mean between `lo` and `hi`. */
  lemma QuotientBounds(total: real, n: real, lo: real, hi: real)
    requires n > 0.0 && n * lo <= total <= n * hi
    ensures lo <= total / n <= hi
  {
    var m := total / n;
    assert m * n == total;
    assert (m - lo) * n >= 0.0;
    assert (hi - m) * n >= 0.0;
  }

  lemma {:induction false} SumBounds(p: seq<real>, lo: real, hi: real)
    requires forall x :: x in p ==> lo <= x <= hi
    ensures |p| as real * lo <= Sum(p) <= |p| as real * hi
  {
    if p != [] {
      assert p[0] in p;
      forall x | x in p[1..] ensures lo <= x <= hi {
        assert x in p;
      }
      SumBounds(p[1..], lo, hi);
    }
  }

  /** The index of the first element satisfying `p`, if any. */
  function FirstIndex<T>(s: seq<T>, p: T -> bool): (k: Option<nat>)
    ensures k.None? <==> forall i :: 0 <= i < |s| ==> !p(s[i])
    ensures k.Some? ==> k.value < |s| && p(s[k.value]) && forall i :: 0 <= i < k.value ==> !p(s[i])
  {
    if s == [] then None
    else if p(s[0]) then Some(0)
    else
      match FirstIndex(s[1..], p)
      case None => None
      case Some(j) => Some(j + 1)
  }

  /** `df[mask].iloc[0]`: the head of the filtered list is the first element satisfying the
      mask. */
  lemma {:induction false} FilterHead<T>(s: seq<T>, p: T -> bool)
    ensures Filter(s, p) != [] <==> FirstIndex(s, p).Some?
    ensures Filter(s, p) != [] ==> Filter(s, p)[0] == s[FirstIndex(s, p).value]
  {
    if s != [] && !p(s[0]) {
      FilterHead(s[1..], p);
    }
  }

  /** `Series.unique()`: the distinct elements in order of first appearance. */
  function Distinct<T(==,!new)>(s: seq<T>): (r: seq<T>)
    ensures forall x :: x in r <==> x in s
    ensures forall i, j :: 0 <= i < j < |r| ==> r[i] != r[j]
    ensures |r| <= |s|
  {
    if s == [] then []
    else
      var d := Distinct(s[..|s| - 1]);
      assert forall x :: x in s <==> x in s[..|s| - 1] || x == s[|s| - 1] by {
        assert s == s[..|s| - 1] + [s[|s| - 1]];
      }
      if s[|s| - 1] in d then d else d + [s[|s| - 1]]
  }

  /** The first index of a present value no greater than every present value
      (`Series.idxmin` skipping NaN), or `None` when every value is NaN. */
  function FirstArgMin(c: seq<Option<real>>): (k: Option<nat>)
    ensures k.None? <==> forall i :: 0 <= i < |c| ==> c[i].None?
    ensures k.Some? ==> k.value < |c| && c[k.value].Some?
    ensures k.Some? ==> forall i :: 0 <= i < |c| && c[i].Some? ==> c[k.value].value <= c[i].value
    ensures k.Some? ==> forall i :: 0 <= i < k.value && c[i].Some? ==> c[k.value].value < c[i].value
  {
    if c == [] then None
    else
      var n := |c| - 1;
      match FirstArgMin(c[..n])
      case None => if c[n].Some? then Some(n) else None
      case Some(k) => if c[n].Some? && c[n].value < c[k].value then Some(n) else Some(k)
  }
}
