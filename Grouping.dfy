/**
  Grouping transactions by category, as both aggregations do by walking the
  list once and updating a JavaScript `Map` keyed by category id. A `Map`
  iterates its keys in the order they were first set, so the grouping is
  described by the keys in order of first appearance together with, per
  key, the sum of the amounts and the number of transactions.

  All three functions are defined on a list by its last element, the way a
  left-to-right walk extends it.
*/
module Grouping {
  import opened Lists
  import opened Model

  /** Distinct categories of `s` in order of first appearance. */
  function CategoryKeys(s: seq<Transaction>): seq<string>
  {
    if s == [] then []
    else
      var keys := CategoryKeys(s[..|s| - 1]);
      var c := s[|s| - 1].category;
      if c in keys then keys else keys + [c]
  }

  /** Sum of the amounts of the transactions of category `c`. */
  function SumFor(s: seq<Transaction>, c: string): real
  {
    if s == [] then 0.0
    else SumFor(s[..|s| - 1], c) + (if s[|s| - 1].category == c then s[|s| - 1].amount else 0.0)
  }

  /** Number of transactions of category `c`. */
  function CountFor(s: seq<Transaction>, c: string): nat
  {
    if s == [] then 0
    else CountFor(s[..|s| - 1], c) + (if s[|s| - 1].category == c then 1 else 0)
  }

  /** Sum of the per-category sums over the categories `keys`. */
  function SumOver(keys: seq<string>, s: seq<Transaction>): real
  {
    if keys == [] then 0.0 else SumFor(s, keys[0]) + SumOver(keys[1..], s)
  }

  predicate Distinct(keys: seq<string>)
  {
    forall i, j :: 0 <= i < j < |keys| ==> keys[i] != keys[j]
  }

  /** How the three functions extend when the walk takes one more transaction. */
  lemma Step(s: seq<Transaction>, i: nat)
    requires i < |s|
    ensures CategoryKeys(s[..i + 1]) ==
      if s[i].category in CategoryKeys(s[..i]) then CategoryKeys(s[..i]) else CategoryKeys(s[..i]) + [s[i].category]
    ensures forall c :: SumFor(s[..i + 1], c) == SumFor(s[..i], c) + (if s[i].category == c then s[i].amount else 0.0)
    ensures forall c :: CountFor(s[..i + 1], c) == CountFor(s[..i], c) + (if s[i].category == c then 1 else 0)
  {
    assert s[..i + 1][..i] == s[..i];
  }

  /** `Step` for one category. */
  lemma StepAt(s: seq<Transaction>, i: nat, c: string)
    requires i < |s|
    ensures SumFor(s[..i + 1], c) == SumFor(s[..i], c) + (if s[i].category == c then s[i].amount else 0.0)
    ensures CountFor(s[..i + 1], c) == CountFor(s[..i], c) + (if s[i].category == c then 1 else 0)
  {
    assert s[..i + 1][..i] == s[..i];
  }

  /** A category that is not among the keys has sum 0 and count 0. */
  lemma {:induction false} AbsentZero(s: seq<Transaction>, c: string)
    requires c !in CategoryKeys(s)
    ensures SumFor(s, c) == 0.0 && CountFor(s, c) == 0
  {
    if s != [] {
      AbsentZero(s[..|s| - 1], c);
    }
  }

  /**
    The keys are distinct, and they are exactly the categories that occur;
    a category that does not occur has sum 0 and count 0, one that does
    has count at least 1.
  */
  lemma {:induction false} KeysExact(s: seq<Transaction>)
    ensures Distinct(CategoryKeys(s))
    ensures forall c :: c in CategoryKeys(s) <==> exists t :: t in s && t.category == c
    ensures forall c :: c !in CategoryKeys(s) ==> SumFor(s, c) == 0.0 && CountFor(s, c) == 0
    ensures forall c :: c in CategoryKeys(s) ==> CountFor(s, c) >= 1
  {
    if s != [] {
      var n := |s| - 1;
      var p := s[..n];
      KeysExact(p);
      assert s == p + [s[n]];
      forall c ensures c in CategoryKeys(s) <==> exists t :: t in s && t.category == c {
        if c in CategoryKeys(s) && c != s[n].category {
          var t :| t in p && t.category == c;
          assert t in s;
        }
        if exists t :: t in s && t.category == c {
          var t :| t in s && t.category == c;
          if t != s[n] {
            assert t in p;
          }
        }
      }
    }
  }

  /** Adding the sums of distinct keys for one more transaction adds its amount once, if its key is among them. */
  lemma {:induction false} SumOverStep(keys: seq<string>, s: seq<Transaction>, i: nat)
    requires Distinct(keys)
    requires i < |s|
    ensures SumOver(keys, s[..i + 1]) == SumOver(keys, s[..i]) + (if s[i].category in keys then s[i].amount else 0.0)
  {
    Step(s, i);
    if keys != [] {
      assert Distinct(keys[1..]) by {
        forall a, b | 0 <= a < b < |keys[1..]| ensures keys[1..][a] != keys[1..][b] {
          assert keys[1..][a] == keys[a + 1] && keys[1..][b] == keys[b + 1];
        }
      }
      SumOverStep(keys[1..], s, i);
      if keys[0] == s[i].category {
        assert s[i].category !in keys[1..];
      } else {
        assert s[i].category in keys <==> s[i].category in keys[1..] by {
          assert keys == [keys[0]] + keys[1..];
        }
      }
    }
  }

  lemma {:induction false} SumOverAppend(keys: seq<string>, c: string, s: seq<Transaction>)
    ensures SumOver(keys + [c], s) == SumOver(keys, s) + SumFor(s, c)
  {
    if keys == [] {
      assert keys + [c] == [c];
    } else {
      assert (keys + [c])[0] == keys[0] && (keys + [c])[1..] == keys[1..] + [c];
      SumOverAppend(keys[1..], c, s);
    }
  }

  /**
    Reconciliation: the per-category sums of a walk add up to the sum of all
    amounts.
  */
  lemma {:induction false} GroupSumsReconcile(s: seq<Transaction>)
    ensures SumOver(CategoryKeys(s), s) == Total(s)
  {
    if s != [] {
      var n := |s| - 1;
      var p := s[..n];
      assert s[..n + 1] == s;
      GroupSumsReconcile(p);
      KeysExact(p);
      Step(s, n);
      SumOverStep(CategoryKeys(p), s, n);
      SumBySnoc(s, n, Amount);
      var c := s[n].category;
      if c !in CategoryKeys(p) {
        SumOverAppend(CategoryKeys(p), c, s);
        assert SumFor(s, c) == SumFor(p, c) + s[n].amount;
      }
    }
  }

  /** With no negative amount, one category's sum lies between 0 and the sum of all amounts. */
  lemma {:induction false} SumForBounds(s: seq<Transaction>, c: string)
    requires forall t :: t in s ==> t.amount >= 0.0
    ensures 0.0 <= SumFor(s, c) <= Total(s)
  {
    if s != [] {
      var n := |s| - 1;
      assert s[..n + 1] == s;
      assert forall t :: t in s[..n] ==> t in s;
      SumForBounds(s[..n], c);
      SumBySnoc(s, n, Amount);
    }
  }
}
