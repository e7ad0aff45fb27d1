/**
  Generic list operations that the application performs with JavaScript's
  array built-ins: `reduce` with a running sum, and the stable `sort` with a
  "larger key first" comparator (`(a, b) => key(b) - key(a)`).
*/
module Lists {

  /** `s.reduce((sum, x) => sum + f(x), 0)` */
  function SumBy<T>(s: seq<T>, f: T -> real): real
  {
    if s == [] then 0.0 else f(s[0]) + SumBy(s[1..], f)
  }

  lemma {:induction false} SumByAppend<T>(a: seq<T>, b: seq<T>, f: T -> real)
    ensures SumBy(a + b, f) == SumBy(a, f) + SumBy(b, f)
  {
    if a == [] {
      assert a + b == b;
    } else {
      assert (a + b)[1..] == a[1..] + b;
      SumByAppend(a[1..], b, f);
    }
  }

  /** The usual step of a left-to-right `reduce`: one more element at the end. */
  lemma SumBySnoc<T>(s: seq<T>, i: nat, f: T -> real)
    requires i < |s|
    ensures SumBy(s[..i + 1], f) == SumBy(s[..i], f) + f(s[i])
  {
    assert s[..i + 1] == s[..i] + [s[i]];
    SumByAppend(s[..i], [s[i]], f);
  }

  /** No two elements share the same `f` value. */
  predicate DistinctBy<T, U(==)>(s: seq<T>, f: T -> U)
  {
    forall i, j :: 0 <= i < j < |s| ==> f(s[i]) != f(s[j])
  }

  /** Non-increasing by `key`. */
  predicate SortedDesc<T>(s: seq<T>, key: T -> real)
  {
    forall i, j :: 0 <= i < j < |s| ==> key(s[i]) >= key(s[j])
  }

  /** Places `x` before the first element whose key is not larger than its own. */
  function Insert<T>(x: T, s: seq<T>, key: T -> real): (r: seq<T>)
    ensures |r| == |s| + 1
    ensures multiset(r) == multiset(s) + multiset{x}
  {
    if s == [] || key(x) >= key(s[0]) then [x] + s
    else
      assert s == [s[0]] + s[1..];
      [s[0]] + Insert(x, s[1..], key)
  }

  /**
    Stable sort, largest key first, as `Array.prototype.sort` does with the
    comparator `(a, b) => key(b) - key(a)`: the head of the list is inserted
    in front of every later element with an equal key.
  */
  function SortDesc<T>(s: seq<T>, key: T -> real): (r: seq<T>)
    ensures |r| == |s|
    ensures multiset(r) == multiset(s)
  {
    if s == [] then []
    else
      assert s == [s[0]] + s[1..];
      Insert(s[0], SortDesc(s[1..], key), key)
  }

  lemma {:induction false} InsertSorted<T>(x: T, s: seq<T>, key: T -> real)
    requires SortedDesc(s, key)
    ensures SortedDesc(Insert(x, s, key), key)
  {
    if s == [] || key(x) >= key(s[0]) {
      ConsSorted(x, s, key);
    } else {
      InsertSorted(x, s[1..], key);
      InsertBounded(x, s[1..], key, key(s[0]));
      ConsSorted(s[0], Insert(x, s[1..], key), key);
    }
  }

  /** Putting in front of a sorted list an element whose key is not smaller than its head's keeps it sorted. */
  lemma ConsSorted<T>(y: T, s: seq<T>, key: T -> real)
    requires SortedDesc(s, key)
    requires s == [] || key(y) >= key(s[0])
    ensures SortedDesc([y] + s, key)
  {
    var r := [y] + s;
    forall i, j | 0 <= i < j < |r| ensures key(r[i]) >= key(r[j]) {
      if i > 0 { assert r[i] == s[i - 1] && r[j] == s[j - 1]; }
      else { assert r[j] == s[j - 1]; }
    }
  }

  /** Inserting into a list whose keys are at most `v` an element whose key is at most `v` keeps them so. */
  lemma {:induction false} InsertBounded<T>(x: T, s: seq<T>, key: T -> real, v: real)
    requires key(x) <= v
    requires forall k :: 0 <= k < |s| ==> key(s[k]) <= v
    ensures var r := Insert(x, s, key); |r| > 0 ==> key(r[0]) <= v
    ensures var r := Insert(x, s, key); forall k :: 0 <= k < |r| ==> key(r[k]) <= v
  {
    if s != [] && key(x) < key(s[0]) {
      InsertBounded(x, s[1..], key, v);
      var t := Insert(x, s[1..], key);
      assert forall k :: 0 < k < |t| + 1 ==> ([s[0]] + t)[k] == t[k - 1];
    } else {
      assert forall k :: 0 < k < |s| + 1 ==> ([x] + s)[k] == s[k - 1];
    }
  }

  lemma {:induction false} SortDescSorted<T>(s: seq<T>, key: T -> real)
    ensures SortedDesc(SortDesc(s, key), key)
  {
    if s != [] {
      SortDescSorted(s[1..], key);
      InsertSorted(s[0], SortDesc(s[1..], key), key);
    }
  }

  /** Every element of a sorting keeps its value of any `f`; so do sums of `f`. */
  lemma {:induction false} InsertSum<T>(x: T, s: seq<T>, key: T -> real, f: T -> real)
    ensures SumBy(Insert(x, s, key), f) == f(x) + SumBy(s, f)
  {
    if s == [] || key(x) >= key(s[0]) {
      assert ([x] + s)[1..] == s;
    } else {
      InsertSum(x, s[1..], key, f);
      assert ([s[0]] + Insert(x, s[1..], key))[1..] == Insert(x, s[1..], key);
    }
  }

  lemma {:induction false} SortDescSum<T>(s: seq<T>, key: T -> real, f: T -> real)
    ensures SumBy(SortDesc(s, key), f) == SumBy(s, f)
  {
    if s != [] {
      SortDescSum(s[1..], key, f);
      InsertSum(s[0], SortDesc(s[1..], key), key, f);
    }
  }

  lemma {:induction false} InsertDistinct<T, U>(x: T, s: seq<T>, key: T -> real, f: T -> U)
    requires DistinctBy(s, f)
    requires forall y :: y in s ==> f(y) != f(x)
    ensures DistinctBy(Insert(x, s, key), f)
  {
    if s == [] || key(x) >= key(s[0]) {
      var r := [x] + s;
      forall i, j | 0 <= i < j < |r| ensures f(r[i]) != f(r[j]) {
        assert r[j] == s[j - 1];
        if i > 0 { assert r[i] == s[i - 1]; }
      }
    } else {
      var t := Insert(x, s[1..], key);
      InsertDistinct(x, s[1..], key, f);
      forall k | 0 <= k < |t| ensures f(s[0]) != f(t[k]) {
        assert t[k] in multiset(t);
        if t[k] != x {
          assert t[k] in multiset(s[1..]);
          var m :| 0 <= m < |s[1..]| && s[1..][m] == t[k];
          assert s[1 + m] == t[k];
        } else {
          assert s[0] in s;
        }
      }
      var r := [s[0]] + t;
      forall i, j | 0 <= i < j < |r| ensures f(r[i]) != f(r[j]) {
        assert r[j] == t[j - 1];
        if i > 0 { assert r[i] == t[i - 1]; }
      }
    }
  }

  lemma {:induction false} SortDescDistinct<T, U>(s: seq<T>, key: T -> real, f: T -> U)
    requires DistinctBy(s, f)
    ensures DistinctBy(SortDesc(s, key), f)
  {
    if s != [] {
      assert DistinctBy(s[1..], f) by {
        forall i, j | 0 <= i < j < |s[1..]| ensures f(s[1..][i]) != f(s[1..][j]) {
          assert s[1..][i] == s[i + 1] && s[1..][j] == s[j + 1];
        }
      }
      SortDescDistinct(s[1..], key, f);
      var t := SortDesc(s[1..], key);
      forall y | y in t ensures f(y) != f(s[0]) {
        assert y in multiset(s[1..]);
        var m :| 0 <= m < |s[1..]| && s[1..][m] == y;
        assert s[1 + m] == y;
      }
      InsertDistinct(s[0], t, key, f);
    }
  }

  /** The elements of `s` whose key is `k`, in their order in `s`. */
  function WithKey<T>(s: seq<T>, key: T -> real, k: real): (r: seq<T>)
  {
    if s == [] then []
    else (if key(s[0]) == k then [s[0]] else []) + WithKey(s[1..], key, k)
  }

  lemma {:induction false} InsertStable<T>(x: T, s: seq<T>, key: T -> real, k: real)
    ensures WithKey(Insert(x, s, key), key, k)
         == (if key(x) == k then [x] else []) + WithKey(s, key, k)
  {
    if s == [] || key(x) >= key(s[0]) {
      WithKeyCons(x, s, key, k);
    } else {
      var t := Insert(x, s[1..], key);
      InsertStable(x, s[1..], key, k);
      assert Insert(x, s, key) == [s[0]] + t;
      assert s == [s[0]] + s[1..];
      PassLarger(s[0], x, t, s[1..], key, k);
    }
  }

  /**
    Putting in front an element `y` whose key is larger than `x`'s: at most
    one of the two has key `k`, so their order among the kept ones does not
    matter.
  */
  lemma PassLarger<T>(y: T, x: T, t: seq<T>, rest: seq<T>, key: T -> real, k: real)
    requires key(x) < key(y)
    requires WithKey(t, key, k) == (if key(x) == k then [x] else []) + WithKey(rest, key, k)
    ensures WithKey([y] + t, key, k) == (if key(x) == k then [x] else []) + WithKey([y] + rest, key, k)
  {
    WithKeyCons(y, t, key, k);
    WithKeyCons(y, rest, key, k);
  }

  lemma WithKeyCons<T>(y: T, s: seq<T>, key: T -> real, k: real)
    ensures WithKey([y] + s, key, k) == (if key(y) == k then [y] else []) + WithKey(s, key, k)
  {
    assert ([y] + s)[1..] == s;
  }

  /**
    Stability: among elements with the same key, the sort keeps the order
    they had in the input.
  */
  lemma {:induction false} SortDescStable<T>(s: seq<T>, key: T -> real, k: real)
    ensures WithKey(SortDesc(s, key), key, k) == WithKey(s, key, k)
  {
    if s != [] {
      SortDescStable(s[1..], key, k);
      InsertStable(s[0], SortDesc(s[1..], key), key, k);
    }
  }
}
