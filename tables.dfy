/**
 * The single-table SQL statements the handlers issue, over a table held as a
 * sequence of rows in primary-key order: `DELETE ... WHERE`, `UPDATE ... WHERE`.
 */
module Tables {

  /** Primary keys strictly ascend along the table (AUTO_INCREMENT order); so they are unique. */
  ghost predicate KeysAscending<T>(rows: seq<T>, key: T -> int) {
    forall i, j | 0 <= i < j < |rows| :: key(rows[i]) < key(rows[j])
  }

  /** Every key is below the next AUTO_INCREMENT value. */
  ghost predicate KeysBelow<T>(rows: seq<T>, key: T -> int, bound: int) {
    forall i | 0 <= i < |rows| :: key(rows[i]) < bound
  }

  /** The rows that a `DELETE` whose condition is `!keep` leaves, in table order. */
  function Where<T>(rows: seq<T>, keep: T -> bool): (r: seq<T>)
    ensures |r| <= |rows|
    ensures forall i | 0 <= i < |r| :: r[i] in rows && keep(r[i])
    ensures forall i | 0 <= i < |rows| :: keep(rows[i]) ==> rows[i] in r
  {
    if rows == [] then []
    else if keep(rows[0]) then [rows[0]] + Where(rows[1..], keep)
    else Where(rows[1..], keep)
  }

  /** The table after `UPDATE ... SET f WHERE sel`. */
  function UpdateWhere<T>(rows: seq<T>, sel: T -> bool, f: T -> T): (r: seq<T>)
    ensures |r| == |rows|
    ensures forall i | 0 <= i < |rows| :: r[i] == if sel(rows[i]) then f(rows[i]) else rows[i]
  {
    if rows == [] then []
    else [if sel(rows[0]) then f(rows[0]) else rows[0]] + UpdateWhere(rows[1..], sel, f)
  }

  /** An `UPDATE` whose condition matches no row leaves the table as it was. */
  lemma {:induction false} UpdateNothingSelected<T>(rows: seq<T>, sel: T -> bool, f: T -> T)
    requires forall i | 0 <= i < |rows| :: !sel(rows[i])
    ensures UpdateWhere(rows, sel, f) == rows
  {
  }

  /** Deleting keeps keys ascending. */
  lemma {:induction false} WhereAscending<T>(rows: seq<T>, keep: T -> bool, key: T -> int)
    requires KeysAscending(rows, key)
    ensures KeysAscending(Where(rows, keep), key)
  {
    if rows != [] {
      var rest := rows[1..];
      assert KeysAscending(rest, key) by {
        forall i, j | 0 <= i < j < |rest| ensures key(rest[i]) < key(rest[j]) {
          assert rest[i] == rows[i + 1] && rest[j] == rows[j + 1];
        }
      }
      WhereAscending(rest, keep, key);
      var tail := Where(rest, keep);
      forall y | y in tail ensures key(rows[0]) < key(y) {
        var k :| 0 <= k < |rest| && rest[k] == y;
        assert rows[k + 1] == y;
      }
    }
  }

  /** Deleting keeps keys below the bound. */
  lemma WhereBelow<T>(rows: seq<T>, keep: T -> bool, key: T -> int, bound: int)
    requires KeysBelow(rows, key, bound)
    ensures KeysBelow(Where(rows, keep), key, bound)
  {
    var r := Where(rows, keep);
    forall i | 0 <= i < |r| ensures key(r[i]) < bound {
      assert r[i] in rows;
    }
  }

  /** An update that leaves keys alone keeps them ascending and below the bound. */
  lemma UpdateKeepsKeys<T>(rows: seq<T>, sel: T -> bool, f: T -> T, key: T -> int, bound: int)
    requires forall x :: key(f(x)) == key(x)
    requires KeysAscending(rows, key) && KeysBelow(rows, key, bound)
    ensures KeysAscending(UpdateWhere(rows, sel, f), key)
    ensures KeysBelow(UpdateWhere(rows, sel, f), key, bound)
  {
  }

  /** Appending a row whose key is the counter, then bumping the counter, keeps both invariants. */
  lemma AppendKeepsKeys<T>(rows: seq<T>, x: T, key: T -> int, bound: int)
    requires KeysAscending(rows, key) && KeysBelow(rows, key, bound)
    requires key(x) == bound
    ensures KeysAscending(rows + [x], key)
    ensures KeysBelow(rows + [x], key, bound + 1)
  {
  }

  /** The keys present in the table. */
  function KeySet<T>(rows: seq<T>, key: T -> int): set<int> {
    set i | 0 <= i < |rows| :: key(rows[i])
  }

  /** Referential integrity: every child names a parent key in `keys`. */
  ghost predicate RefsIn<C>(children: seq<C>, parent: C -> int, keys: set<int>) {
    forall i | 0 <= i < |children| :: parent(children[i]) in keys
  }

  /** An update that leaves keys alone leaves the key set alone. */
  lemma UpdateKeySet<T>(rows: seq<T>, sel: T -> bool, f: T -> T, key: T -> int)
    requires forall x :: key(f(x)) == key(x)
    ensures KeySet(UpdateWhere(rows, sel, f), key) == KeySet(rows, key)
  {
    var u := UpdateWhere(rows, sel, f);
    forall k | k in KeySet(rows, key) ensures k in KeySet(u, key) {
      var i :| 0 <= i < |rows| && key(rows[i]) == k;
      assert key(u[i]) == k;
    }
    forall k | k in KeySet(u, key) ensures k in KeySet(rows, key) {
      var i :| 0 <= i < |u| && key(u[i]) == k;
      assert key(rows[i]) == k;
    }
  }

  /** Deleting by key removes exactly that key. */
  lemma DeleteKeySet<T>(rows: seq<T>, keep: T -> bool, key: T -> int, k: int)
    requires forall x :: keep(x) == (key(x) != k)
    ensures KeySet(Where(rows, keep), key) == KeySet(rows, key) - {k}
  {
    var w := Where(rows, keep);
    forall j | j in KeySet(rows, key) - {k} ensures j in KeySet(w, key) {
      var i :| 0 <= i < |rows| && key(rows[i]) == j;
      assert rows[i] in w;
      var m :| 0 <= m < |w| && w[m] == rows[i];
      assert key(w[m]) == j;
    }
    forall j | j in KeySet(w, key) ensures j in KeySet(rows, key) - {k} {
      var m :| 0 <= m < |w| && key(w[m]) == j;
      var i :| 0 <= i < |rows| && rows[i] == w[m];
      assert key(rows[i]) == j;
    }
  }

  /** The cascade: dropping the children of parent `k` keeps integrity once `k` is gone. */
  lemma CascadeRefs<C>(children: seq<C>, parent: C -> int, keep: C -> bool, keys: set<int>, k: int)
    requires RefsIn(children, parent, keys)
    requires forall x :: keep(x) == (parent(x) != k)
    ensures RefsIn(Where(children, keep), parent, keys - {k})
  {
    var w := Where(children, keep);
    forall i | 0 <= i < |w| ensures parent(w[i]) in keys - {k} {
      var j :| 0 <= j < |children| && children[j] == w[i];
    }
  }

  /** Deleting children keeps integrity. */
  lemma WhereRefs<C>(children: seq<C>, parent: C -> int, keep: C -> bool, keys: set<int>)
    requires RefsIn(children, parent, keys)
    ensures RefsIn(Where(children, keep), parent, keys)
  {
    var w := Where(children, keep);
    forall i | 0 <= i < |w| ensures parent(w[i]) in keys {
      var j :| 0 <= j < |children| && children[j] == w[i];
    }
  }

  /** Appending a row adds its key. */
  lemma AppendKeySet<T>(rows: seq<T>, x: T, key: T -> int)
    ensures KeySet(rows + [x], key) == KeySet(rows, key) + {key(x)}
  {
    var a := rows + [x];
    forall j | j in KeySet(rows, key) ensures j in KeySet(a, key) {
      var i :| 0 <= i < |rows| && key(rows[i]) == j;
      assert key(a[i]) == j;
    }
    assert key(a[|rows|]) == key(x);
  }

  /** Integrity survives a growing key set. */
  lemma RefsGrow<C>(children: seq<C>, parent: C -> int, keys: set<int>, more: set<int>)
    requires RefsIn(children, parent, keys) && keys <= more
    ensures RefsIn(children, parent, more)
  {
  }

  /** A condition and its negation split a table in two. */
  lemma {:induction false} WhereSplit<T>(rows: seq<T>, keep: T -> bool, drop: T -> bool)
    requires forall x :: drop(x) == !keep(x)
    ensures multiset(Where(rows, keep)) + multiset(Where(rows, drop)) == multiset(rows)
  {
    if rows != [] {
      var x, rest := rows[0], rows[1..];
      WhereSplit(rest, keep, drop);
      assert rows == [x] + rest;
      assert multiset(rows) == multiset{x} + multiset(rest);
      if keep(x) {
        assert Where(rows, keep) == [x] + Where(rest, keep);
        assert Where(rows, drop) == Where(rest, drop);
      } else {
        assert Where(rows, keep) == Where(rest, keep);
        assert Where(rows, drop) == [x] + Where(rest, drop);
      }
    }
  }

  /** ON DELETE CASCADE: deleting parent `k` together with its children keeps both tables'
      keys in order and every remaining child pointing at a remaining parent. */
  lemma CascadeDelete<P, C>(parents: seq<P>, key: P -> int, keepParent: P -> bool, nextParent: int,
                            children: seq<C>, childKey: C -> int, owner: C -> int, keepChild: C -> bool,
                            nextChild: int, k: int)
    requires forall x :: keepParent(x) == (key(x) != k)
    requires forall y :: keepChild(y) == (owner(y) != k)
    requires KeysAscending(parents, key) && KeysBelow(parents, key, nextParent)
    requires KeysAscending(children, childKey) && KeysBelow(children, childKey, nextChild)
    requires RefsIn(children, owner, KeySet(parents, key))
    ensures KeysAscending(Where(parents, keepParent), key)
    ensures KeysBelow(Where(parents, keepParent), key, nextParent)
    ensures KeysAscending(Where(children, keepChild), childKey)
    ensures KeysBelow(Where(children, keepChild), childKey, nextChild)
    ensures RefsIn(Where(children, keepChild), owner, KeySet(Where(parents, keepParent), key))
    ensures k !in KeySet(Where(parents, keepParent), key)
  {
    WhereAscending(parents, keepParent, key);
    WhereBelow(parents, keepParent, key, nextParent);
    WhereAscending(children, keepChild, childKey);
    WhereBelow(children, keepChild, childKey, nextChild);
    DeleteKeySet(parents, keepParent, key, k);
    CascadeRefs(children, owner, keepChild, KeySet(parents, key), k);
  }
}
