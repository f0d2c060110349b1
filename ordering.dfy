/**
 * Stable sorting by an integer key, ascending or descending. This is the
 * behaviour of Python's `list.sort(key=...)` and `list.sort(key=..., reverse=True)`:
 * both are stable, so rows with equal keys keep their original order.
 */
module Ordering {

  /** `a` may stand before `b`: key order, reversed when `descending`. */
  predicate InOrder<T>(key: T -> int, descending: bool, a: T, b: T) {
    if descending then key(a) >= key(b) else key(a) <= key(b)
  }

  ghost predicate Sorted<T>(s: seq<T>, key: T -> int, descending: bool) {
    forall i, j | 0 <= i < j < |s| :: InOrder(key, descending, s[i], s[j])
  }

  /** The elements of `s` whose key is `k`, in their order in `s`. */
  function WithKey<T>(s: seq<T>, key: T -> int, k: int): seq<T> {
    if s == [] then []
    else if key(s[0]) == k then [s[0]] + WithKey(s[1..], key, k)
    else WithKey(s[1..], key, k)
  }

  /** Puts `x` before the first element it may stand before. */
  function Insert<T>(x: T, s: seq<T>, key: T -> int, descending: bool): seq<T> {
    if s == [] || InOrder(key, descending, x, s[0]) then [x] + s
    else [s[0]] + Insert(x, s[1..], key, descending)
  }

  /** Insertion sort: each element goes in front of every element it may stand before. */
  function SortBy<T>(s: seq<T>, key: T -> int, descending: bool): seq<T> {
    if s == [] then []
    else Insert(s[0], SortBy(s[1..], key, descending), key, descending)
  }

  lemma {:induction false} InsertPermutes<T>(x: T, s: seq<T>, key: T -> int, descending: bool)
    ensures multiset(Insert(x, s, key, descending)) == multiset{x} + multiset(s)
  {
    if s != [] && !InOrder(key, descending, x, s[0]) {
      InsertPermutes(x, s[1..], key, descending);
      assert s == [s[0]] + s[1..];
    }
  }

  lemma {:induction false} InsertSorted<T>(x: T, s: seq<T>, key: T -> int, descending: bool)
    requires Sorted(s, key, descending)
    ensures Sorted(Insert(x, s, key, descending), key, descending)
  {
    if s != [] && !InOrder(key, descending, x, s[0]) {
      var rest := s[1..];
      assert Sorted(rest, key, descending) by {
        forall i, j | 0 <= i < j < |rest| ensures InOrder(key, descending, rest[i], rest[j]) {
          assert rest[i] == s[i + 1] && rest[j] == s[j + 1];
        }
      }
      InsertSorted(x, rest, key, descending);
      InsertPermutes(x, rest, key, descending);
      var t := Insert(x, rest, key, descending);
      forall j | 0 <= j < |t| ensures InOrder(key, descending, s[0], t[j]) {
        assert t[j] in multiset(t);
        if t[j] != x {
          assert t[j] in rest;
          var k :| 0 <= k < |rest| && rest[k] == t[j];
          assert s[k + 1] == t[j];
        }
      }
    }
  }

  /** Inserting `x` puts it in front of every element of its own key. */
  lemma {:induction false} InsertWithKey<T>(x: T, s: seq<T>, key: T -> int, descending: bool, k: int)
    ensures WithKey(Insert(x, s, key, descending), key, k)
         == (if key(x) == k then [x] else []) + WithKey(s, key, k)
  {
    var mine: seq<T> := if key(x) == k then [x] else [];
    if s == [] || InOrder(key, descending, x, s[0]) {
      var r := [x] + s;
      assert Insert(x, s, key, descending) == r;
      assert r[0] == x && r[1..] == s;
      assert WithKey(r, key, k) == mine + WithKey(s, key, k);
    } else {
      var t := Insert(x, s[1..], key, descending);
      InsertWithKey(x, s[1..], key, descending, k);
      var r := [s[0]] + t;
      assert Insert(x, s, key, descending) == r;
      assert r[0] == s[0] && r[1..] == t;
      var head: seq<T> := if key(s[0]) == k then [s[0]] else [];
      assert WithKey(r, key, k) == head + WithKey(t, key, k);
      assert WithKey(s, key, k) == head + WithKey(s[1..], key, k);
      assert key(s[0]) != key(x);
      assert head == [] || mine == [];
    }
  }

  /** The sorted sequence holds exactly the elements of the input. */
  lemma {:induction false} SortPermutes<T>(s: seq<T>, key: T -> int, descending: bool)
    ensures multiset(SortBy(s, key, descending)) == multiset(s)
    ensures |SortBy(s, key, descending)| == |s|
  {
    if s != [] {
      SortPermutes(s[1..], key, descending);
      InsertPermutes(s[0], SortBy(s[1..], key, descending), key, descending);
      assert s == [s[0]] + s[1..];
    }
  }

  lemma {:induction false} SortSorted<T>(s: seq<T>, key: T -> int, descending: bool)
    ensures Sorted(SortBy(s, key, descending), key, descending)
  {
    if s != [] {
      SortSorted(s[1..], key, descending);
      InsertSorted(s[0], SortBy(s[1..], key, descending), key, descending);
    }
  }

  /** Stability: the elements sharing one key keep their input order. */
  lemma {:induction false} SortStable<T>(s: seq<T>, key: T -> int, descending: bool, k: int)
    ensures WithKey(SortBy(s, key, descending), key, k) == WithKey(s, key, k)
  {
    if s != [] {
      SortStable(s[1..], key, descending, k);
      InsertWithKey(s[0], SortBy(s[1..], key, descending), key, descending, k);
    }
  }
}
