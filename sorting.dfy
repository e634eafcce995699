/** Sorting as the backend uses it: Python's stable `list.sort(key=…)`, pandas
    `sort_values`, and `sorted(set(...))` over strings (code-point order) and integers. */
module Sorting {

  // ---------------------------------------------------------------- stable sort by key

  predicate SortedBy<T>(s: seq<T>, key: T -> real) {
    forall i, j :: 0 <= i < j < |s| ==> key(s[i]) <= key(s[j])
  }

  /** Inserts `x` before the first element whose key is not smaller. */
  function Insert<T>(x: T, s: seq<T>, key: T -> real): (r: seq<T>)
    ensures |r| == |s| + 1
    ensures multiset(r) == multiset(s) + multiset{x}
  {
    if s == [] || key(x) <= key(s[0]) then [x] + s
    else
      assert s == [s[0]] + s[1..];
      [s[0]] + Insert(x, s[1..], key)
  }

  /** Inserting into a sorted list keeps it sorted. */
  lemma {:induction false} InsertSorted<T>(x: T, s: seq<T>, key: T -> real)
    requires SortedBy(s, key)
    ensures SortedBy(Insert(x, s, key), key)
  {
    if s != [] && key(x) > key(s[0]) {
      InsertSorted(x, s[1..], key);
      forall y | y in s[1..] ensures key(s[0]) <= key(y) {
        var k :| 0 <= k < |s[1..]| && s[1..][k] == y;
        assert s[k + 1] == y;
      }
      InsertAbove(x, s[1..], key, key(s[0]));
      ConsSorted(s[0], Insert(x, s[1..], key), key);
    }
  }

  /** A bound below `x` and every element of `s` bounds every element after inserting. */
  lemma InsertAbove<T>(x: T, s: seq<T>, key: T -> real, lo: real)
    requires lo <= key(x) && forall y :: y in s ==> lo <= key(y)
    ensures forall y :: y in Insert(x, s, key) ==> lo <= key(y)
  {
    var t := Insert(x, s, key);
    forall y | y in t ensures lo <= key(y) {
      assert y in multiset(t);
      if y != x {
        assert y in multiset(s);
      }
    }
  }

  /** An element no greater than every element of a sorted list can go in front of it. */
  lemma ConsSorted<T>(x: T, t: seq<T>, key: T -> real)
    requires SortedBy(t, key) && forall y :: y in t ==> key(x) <= key(y)
    ensures SortedBy([x] + t, key)
  {
    var r := [x] + t;
    forall a, b | 0 <= a < b < |r| ensures key(r[a]) <= key(r[b]) {
      assert r[b] == t[b - 1];
      if a > 0 {
        assert r[a] == t[a - 1];
      }
    }
  }

  /** Stable ascending sort by `key` (insertion sort). */
  function SortBy<T>(s: seq<T>, key: T -> real): (r: seq<T>)
    ensures |r| == |s|
    ensures multiset(r) == multiset(s)
    ensures SortedBy(r, key)
  {
    if s == [] then []
    else
      assert s == [s[0]] + s[1..];
      InsertSorted(s[0], SortBy(s[1..], key), key);
      Insert(s[0], SortBy(s[1..], key), key)
  }

  /** `[y]` when the key of `y` is `v`, otherwise nothing. */
  function Matching<T>(y: T, key: T -> real, v: real): seq<T> {
    if key(y) == v then [y] else []
  }

  /** The elements whose key equals `v`, in order. */
  function KeyClass<T>(s: seq<T>, key: T -> real, v: real): seq<T> {
    if s == [] then [] else Matching(s[0], key, v) + KeyClass(s[1..], key, v)
  }

  lemma KeyClassCons<T>(y: T, t: seq<T>, key: T -> real, v: real)
    ensures KeyClass([y] + t, key, v) == Matching(y, key, v) + KeyClass(t, key, v)
  {
    assert ([y] + t)[1..] == t;
  }

  /** Two elements of different keys never both match `v`, so their order does not matter. */
  lemma MatchingSwap<T>(a: T, b: T, rest: seq<T>, key: T -> real, v: real)
    requires key(a) < key(b)
    ensures Matching(a, key, v) + (Matching(b, key, v) + rest) == Matching(b, key, v) + (Matching(a, key, v) + rest)
  {
    if key(a) == v {
      assert Matching(b, key, v) == [];
      assert [] + rest == rest;
    } else {
      assert Matching(a, key, v) == [];
      assert [] + (Matching(b, key, v) + rest) == Matching(b, key, v) + rest;
      assert [] + rest == rest;
    }
  }

  lemma {:induction false} InsertKeyClass<T>(x: T, s: seq<T>, key: T -> real, v: real)
    requires SortedBy(s, key)
    ensures KeyClass(Insert(x, s, key), key, v) == Matching(x, key, v) + KeyClass(s, key, v)
  {
    if s == [] || key(x) <= key(s[0]) {
      KeyClassCons(x, s, key, v);
    } else {
      var t := Insert(x, s[1..], key);
      var rest := KeyClass(s[1..], key, v);
      assert SortedBy(s[1..], key);
      calc {
        KeyClass(Insert(x, s, key), key, v);
        == { assert Insert(x, s, key) == [s[0]] + t; }
        KeyClass([s[0]] + t, key, v);
        == { KeyClassCons(s[0], t, key, v); }
        Matching(s[0], key, v) + KeyClass(t, key, v);
        == { InsertKeyClass(x, s[1..], key, v); }
        Matching(s[0], key, v) + (Matching(x, key, v) + rest);
        == { MatchingSwap(s[0], x, rest, key, v); }
        Matching(x, key, v) + (Matching(s[0], key, v) + rest);
        == { KeyClassCons(s[0], s[1..], key, v); assert [s[0]] + s[1..] == s; }
        Matching(x, key, v) + KeyClass(s, key, v);
      }
    }
  }

  /** The sort is stable: elements with equal keys keep their relative order. */
  lemma {:induction false} SortByStable<T>(s: seq<T>, key: T -> real, v: real)
    ensures KeyClass(SortBy(s, key), key, v) == KeyClass(s, key, v)
  {
    if s != [] {
      SortByStable(s[1..], key, v);
      InsertKeyClass(s[0], SortBy(s[1..], key), key, v);
    }
  }

  // ---------------------------------------------------------------- string order

  /** Python's `<` on `str`: lexicographic by code point, a proper prefix first. */
  predicate StrLt(a: string, b: string) {
    if a == [] then b != []
    else if b == [] then false
    else if a[0] != b[0] then a[0] < b[0]
    else StrLt(a[1..], b[1..])
  }

  predicate StrLe(a: string, b: string) {
    a == b || StrLt(a, b)
  }

  lemma {:induction false} StrLtIrreflexive(a: string)
    ensures !StrLt(a, a)
  {
    if a != [] {
      StrLtIrreflexive(a[1..]);
    }
  }

  lemma {:induction false} StrLtTransitive(a: string, b: string, c: string)
    requires StrLt(a, b) && StrLt(b, c)
    ensures StrLt(a, c)
  {
    if a != [] && b != [] && c != [] && a[0] == b[0] && b[0] == c[0] {
      StrLtTransitive(a[1..], b[1..], c[1..]);
    }
  }

  lemma {:induction false} StrLtTotal(a: string, b: string)
    ensures a == b || StrLt(a, b) || StrLt(b, a)
  {
    if a != [] && b != [] && a[0] == b[0] {
      StrLtTotal(a[1..], b[1..]);
      if a[1..] == b[1..] {
        assert a == [a[0]] + a[1..] && b == [b[0]] + b[1..];
      }
    }
  }

  lemma StrLtAsymmetric(a: string, b: string)
    requires StrLt(a, b)
    ensures !StrLt(b, a)
  {
    if StrLt(b, a) {
      StrLtTransitive(a, b, a);
      StrLtIrreflexive(a);
    }
  }

  // ---------------------------------------------------------------- sorted distinct values

  predicate StrictlySortedStrings(s: seq<string>) {
    forall i, j :: 0 <= i < j < |s| ==> StrLt(s[i], s[j])
  }

  function InsertString(x: string, s: seq<string>): (r: seq<string>)
    requires StrictlySortedStrings(s)
    ensures StrictlySortedStrings(r)
    ensures forall y :: y in r <==> y == x || y in s
  {
    if s == [] then [x]
    else if x == s[0] then s
    else if StrLt(x, s[0]) then
      assert forall j :: 0 < j < |s| ==> StrLt(x, s[j]) by {
        forall j | 0 < j < |s| ensures StrLt(x, s[j]) {
          StrLtTransitive(x, s[0], s[j]);
        }
      }
      [x] + s
    else
      StrLtTotal(x, s[0]);
      var t := InsertString(x, s[1..]);
      assert forall j :: 0 <= j < |t| ==> StrLt(s[0], t[j]) by {
        forall j | 0 <= j < |t| ensures StrLt(s[0], t[j]) {
          assert t[j] in t;
          if t[j] != x {
            var k :| 0 <= k < |s[1..]| && s[1..][k] == t[j];
            assert s[k + 1] == t[j];
          }
        }
      }
      [s[0]] + t
  }

  /** `sorted(set(s))` for strings: the distinct values in ascending code-point order. */
  function SortedDistinctStrings(s: seq<string>): (r: seq<string>)
    ensures StrictlySortedStrings(r)
    ensures forall y :: y in r <==> y in s
    ensures |r| <= |s|
  {
    if s == [] then []
    else
      var t := SortedDistinctStrings(s[1..]);
      var r := InsertString(s[0], t);
      assert |r| <= |t| + 1 by {
        DistinctCard(r, t, s[0]);
      }
      r
  }

  /** A strictly sorted list has no repeats, so it is no longer than the values it draws
      from plus one new value. */
  lemma DistinctCard(r: seq<string>, t: seq<string>, x: string)
    requires StrictlySortedStrings(r)
    requires forall y :: y in r ==> y == x || y in t
    ensures |r| <= |t| + 1
  {
    var rs := set i | 0 <= i < |r| :: r[i];
    var ts := (set i | 0 <= i < |t| :: t[i]) + {x};
    assert rs <= ts by {
      forall y | y in rs ensures y in ts {
        var i :| 0 <= i < |r| && r[i] == y;
        assert y in r;
        if y != x {
          var k :| 0 <= k < |t| && t[k] == y;
        }
      }
    }
    assert |rs| == |r| by {
      InjectiveCard(r);
    }
    SetOfSeqCard(t);
    assert |ts| <= |t| + 1;
    assert |rs| <= |ts| by {
      SubsetCard(rs, ts);
    }
  }

  lemma {:induction false} InjectiveCard(r: seq<string>)
    requires StrictlySortedStrings(r)
    ensures |set i | 0 <= i < |r| :: r[i]| == |r|
  {
    if r != [] {
      var last := r[|r| - 1];
      var init := r[..|r| - 1];
      InjectiveCard(init);
      var a := set i | 0 <= i < |init| :: init[i];
      var b := set i | 0 <= i < |r| :: r[i];
      assert last !in a by {
        if last in a {
          var i :| 0 <= i < |init| && init[i] == last;
          assert StrLt(r[i], r[|r| - 1]);
          StrLtIrreflexive(last);
        }
      }
      assert b == a + {last};
    }
  }

  lemma {:induction false} SetOfSeqCard(t: seq<string>)
    ensures |set i | 0 <= i < |t| :: t[i]| <= |t|
  {
    if t != [] {
      var init := t[..|t| - 1];
      SetOfSeqCard(init);
      var a := set i | 0 <= i < |init| :: init[i];
      var b := set i | 0 <= i < |t| :: t[i];
      assert b == a + {t[|t| - 1]};
    }
  }

  lemma SubsetCard(a: set<string>, b: set<string>)
    requires a <= b
    ensures |a| <= |b|
  {
    assert b == a + (b - a);
  }

  /** `sorted(set(s))` for integers. */
  function SortedDistinctInts(s: seq<int>): (r: seq<int>)
    ensures forall i, j :: 0 <= i < j < |r| ==> r[i] < r[j]
    ensures forall y :: y in r <==> y in s
  {
    if s == [] then [] else InsertInt(s[0], SortedDistinctInts(s[1..]))
  }

  function InsertInt(x: int, s: seq<int>): (r: seq<int>)
    requires forall i, j :: 0 <= i < j < |s| ==> s[i] < s[j]
    ensures forall i, j :: 0 <= i < j < |r| ==> r[i] < r[j]
    ensures forall y :: y in r <==> y == x || y in s
  {
    if s == [] then [x]
    else if x == s[0] then s
    else if x < s[0] then [x] + s
    else
      var t := InsertInt(x, s[1..]);
      assert forall j :: 0 <= j < |t| ==> s[0] < t[j] by {
        forall j | 0 <= j < |t| ensures s[0] < t[j] {
          assert t[j] in t;
        }
      }
      [s[0]] + t
  }
}
