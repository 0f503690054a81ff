/**
 * A table with an integer primary key, as SQLite stores it: the rows kept in
 * increasing key order (the order in which SQLite scans a rowid table), so that
 * keys are unique. `Upsert` is `INSERT OR REPLACE`, `Delete` is
 * `DELETE ... WHERE key = k`, `Find` is a lookup by primary key.
 */
module KeyedTable {
  import opened Wrappers

  /** Strictly increasing keys: unique, in scan order. */
  predicate Ordered<T>(key: T -> int, rows: seq<T>) {
    forall i, j :: 0 <= i < j < |rows| ==> key(rows[i]) < key(rows[j])
  }

  /** The primary keys present in the table. */
  function Keys<T>(key: T -> int, rows: seq<T>): set<int> {
    if rows == [] then {} else {key(rows[0])} + Keys(key, rows[1..])
  }

  /** The row whose primary key is `k`, if any. */
  function Find<T>(key: T -> int, rows: seq<T>, k: int): Option<T> {
    if rows == [] then None
    else if key(rows[0]) == k then Some(rows[0])
    else Find(key, rows[1..], k)
  }

  /** `INSERT OR REPLACE`: a row with the same key is replaced, otherwise `x` is added. */
  function Upsert<T>(key: T -> int, rows: seq<T>, x: T): seq<T> {
    if rows == [] then [x]
    else if key(x) < key(rows[0]) then [x] + rows
    else if key(x) == key(rows[0]) then [x] + rows[1..]
    else [rows[0]] + Upsert(key, rows[1..], x)
  }

  /** `DELETE ... WHERE key = k`. */
  function Delete<T>(key: T -> int, rows: seq<T>, k: int): seq<T> {
    if rows == [] then []
    else if key(rows[0]) == k then Delete(key, rows[1..], k)
    else [rows[0]] + Delete(key, rows[1..], k)
  }

  /** `INSERT OR REPLACE` of every element of `xs`, first to last. */
  function UpsertAll<T>(key: T -> int, rows: seq<T>, xs: seq<T>): seq<T> {
    if xs == [] then rows else Upsert(key, UpsertAll(key, rows, xs[..|xs| - 1]), xs[|xs| - 1])
  }

  /** The last element of `xs` with key `k`, if any: the one a sequence of REPLACEs leaves behind. */
  function LastWithKey<T>(key: T -> int, xs: seq<T>, k: int): Option<T> {
    if xs == [] then None
    else if key(xs[|xs| - 1]) == k then Some(xs[|xs| - 1])
    else LastWithKey(key, xs[..|xs| - 1], k)
  }

  predicate DistinctKeys<T>(key: T -> int, xs: seq<T>) {
    forall i, j :: 0 <= i < j < |xs| ==> key(xs[i]) != key(xs[j])
  }

  lemma {:induction false} FindSound<T>(key: T -> int, rows: seq<T>, k: int)
    ensures Find(key, rows, k).Some? ==> Find(key, rows, k).value in rows && key(Find(key, rows, k).value) == k
    ensures Find(key, rows, k).Some? <==> k in Keys(key, rows)
  {
    if rows != [] {
      FindSound(key, rows[1..], k);
    }
  }

  /** In an ordered table every row is found under its own key. */
  lemma {:induction false} FindComplete<T>(key: T -> int, rows: seq<T>, r: T)
    requires Ordered(key, rows) && r in rows
    ensures Find(key, rows, key(r)) == Some(r)
  {
    if rows[0] != r {
      assert r in rows[1..];
      FindComplete(key, rows[1..], r);
    }
  }

  /** REPLACE keeps the keys ordered, and afterwards the key of `x` finds `x` and every other key finds what it found before. */
  lemma UpsertFind<T>(key: T -> int, rows: seq<T>, x: T)
    requires Ordered(key, rows)
    ensures Ordered(key, Upsert(key, rows, x))
    ensures forall k :: Find(key, Upsert(key, rows, x), k) == if k == key(x) then Some(x) else Find(key, rows, k)
  {
    UpsertOrdered(key, rows, x);
    forall k ensures Find(key, Upsert(key, rows, x), k) == if k == key(x) then Some(x) else Find(key, rows, k) {
      UpsertFindKey(key, rows, x, k);
    }
  }

  lemma {:induction false} UpsertFindKey<T>(key: T -> int, rows: seq<T>, x: T, k: int)
    ensures Find(key, Upsert(key, rows, x), k) == if k == key(x) then Some(x) else Find(key, rows, k)
  {
    if rows == [] {
    } else if key(x) < key(rows[0]) {
      assert ([x] + rows)[1..] == rows;
    } else if key(x) == key(rows[0]) {
      assert ([x] + rows[1..])[1..] == rows[1..];
    } else {
      UpsertFindKey(key, rows[1..], x, k);
      assert ([rows[0]] + Upsert(key, rows[1..], x))[1..] == Upsert(key, rows[1..], x);
    }
  }

  lemma {:induction false} UpsertMembers<T>(key: T -> int, rows: seq<T>, x: T)
    ensures forall y :: y in Upsert(key, rows, x) ==> y == x || y in rows
  {
    if rows != [] && key(x) > key(rows[0]) {
      UpsertMembers(key, rows[1..], x);
    }
  }

  lemma {:induction false} UpsertOrdered<T>(key: T -> int, rows: seq<T>, x: T)
    requires Ordered(key, rows)
    ensures Ordered(key, Upsert(key, rows, x))
  {
    if rows != [] && key(x) > key(rows[0]) {
      var rest := Upsert(key, rows[1..], x);
      UpsertOrdered(key, rows[1..], x);
      UpsertMembers(key, rows[1..], x);
      forall y | y in rest ensures key(rows[0]) < key(y) {
        if y != x {
          var j :| 0 <= j < |rows[1..]| && rows[1..][j] == y;
          assert rows[j + 1] == y;
        }
      }
      var u := [rows[0]] + rest;
      forall i, j | 0 <= i < j < |u| ensures key(u[i]) < key(u[j]) {
        if i > 0 {
          assert u[i] == rest[i - 1] && u[j] == rest[j - 1];
        } else {
          assert u[j] == rest[j - 1] && u[j] in rest;
        }
      }
    }
  }

  /** DELETE keeps the keys ordered; afterwards `k` finds nothing and every other key finds what it found before. */
  lemma {:induction false} DeleteFind<T>(key: T -> int, rows: seq<T>, k: int)
    requires Ordered(key, rows)
    ensures Ordered(key, Delete(key, rows, k))
    ensures forall j :: Find(key, Delete(key, rows, k), j) == if j == k then None else Find(key, rows, j)
    ensures forall y :: y in Delete(key, rows, k) ==> y in rows
  {
    if rows != [] {
      var rest := Delete(key, rows[1..], k);
      DeleteFind(key, rows[1..], k);
      if key(rows[0]) != k {
        var u := [rows[0]] + rest;
        assert u[1..] == rest;
        forall y | y in rest ensures key(rows[0]) < key(y) {
          var j :| 0 <= j < |rows[1..]| && rows[1..][j] == y;
          assert rows[j + 1] == y;
        }
      }
    }
  }

  /** Two ordered tables that find the same row under every key are the same table. */
  lemma {:induction false} Extensionality<T>(key: T -> int, a: seq<T>, b: seq<T>)
    requires Ordered(key, a) && Ordered(key, b)
    requires forall k :: Find(key, a, k) == Find(key, b, k)
    ensures a == b
    decreases |a| + |b|
  {
    if a == [] && b == [] {
    } else if a == [] || b == [] {
      // an empty table finds nothing, a non-empty one finds its first row
      FindFirst(key, a);
      FindFirst(key, b);
      assert false;
    } else {
      // the first row of each table has the least key of its table
      FindComplete(key, a, a[0]);
      FindComplete(key, b, b[0]);
      FindSound(key, a, key(b[0]));
      FindSound(key, b, key(a[0]));
      var i :| 0 <= i < |a| && a[i] == Find(key, a, key(b[0])).value;
      var j :| 0 <= j < |b| && b[j] == Find(key, b, key(a[0])).value;
      assert key(a[0]) <= key(a[i]) && key(b[0]) <= key(b[j]);
      assert a[0] == b[0];
      forall k ensures Find(key, a[1..], k) == Find(key, b[1..], k) {
        if k == key(a[0]) {
          NoSmallerKey(key, a, k);
          NoSmallerKey(key, b, k);
        } else {
          assert Find(key, a, k) == Find(key, a[1..], k);
          assert Find(key, b, k) == Find(key, b[1..], k);
        }
      }
      Extensionality(key, a[1..], b[1..]);
      assert a == [a[0]] + a[1..] && b == [b[0]] + b[1..];
    }
  }

  lemma FindFirst<T>(key: T -> int, rows: seq<T>)
    ensures rows != [] ==> Find(key, rows, key(rows[0])) == Some(rows[0])
  {
  }

  /** In an ordered table the first row's key does not occur again. */
  lemma NoSmallerKey<T>(key: T -> int, rows: seq<T>, k: int)
    requires Ordered(key, rows) && rows != [] && key(rows[0]) == k
    ensures Find(key, rows[1..], k) == None
  {
    forall y | y in rows[1..] ensures key(y) != k {
      var j :| 0 <= j < |rows[1..]| && rows[1..][j] == y;
      assert rows[j + 1] == y;
    }
    FindAbsent(key, rows[1..], k);
  }

  lemma {:induction false} FindAbsent<T>(key: T -> int, rows: seq<T>, k: int)
    requires forall y :: y in rows ==> key(y) != k
    ensures Find(key, rows, k) == None
  {
    if rows != [] {
      FindAbsent(key, rows[1..], k);
    }
  }

  /** A sequence of REPLACEs keeps the table ordered; afterwards each key finds the last
    * inserted row with that key, and a key no inserted row has finds what it found before. */
  lemma {:induction false} UpsertAllFind<T>(key: T -> int, rows: seq<T>, xs: seq<T>)
    requires Ordered(key, rows)
    ensures Ordered(key, UpsertAll(key, rows, xs))
    ensures forall k :: Find(key, UpsertAll(key, rows, xs), k) ==
                        if LastWithKey(key, xs, k).Some? then LastWithKey(key, xs, k) else Find(key, rows, k)
  {
    if xs != [] {
      UpsertAllFind(key, rows, xs[..|xs| - 1]);
      UpsertFind(key, UpsertAll(key, rows, xs[..|xs| - 1]), xs[|xs| - 1]);
    }
  }

  /** Inserting rows with pairwise distinct keys into an empty table stores exactly those rows. */
  lemma {:induction false} UpsertAllDistinct<T>(key: T -> int, xs: seq<T>)
    requires DistinctKeys(key, xs)
    ensures Ordered(key, UpsertAll(key, [], xs))
    ensures multiset(UpsertAll(key, [], xs)) == multiset(xs)
  {
    if xs != [] {
      var init, x := xs[..|xs| - 1], xs[|xs| - 1];
      UpsertAllDistinct(key, init);
      var t := UpsertAll(key, [], init);
      UpsertAllFind(key, [], init);
      forall y | y in init ensures key(y) != key(x) {
        var i :| 0 <= i < |init| && init[i] == y;
        assert xs[i] == y;
      }
      LastWithKeyAbsent(key, init, key(x));
      UpsertNewKey(key, t, x);
      UpsertOrdered(key, t, x);
      assert xs == init + [x];
    }
  }

  lemma {:induction false} LastWithKeyAbsent<T>(key: T -> int, xs: seq<T>, k: int)
    requires forall y :: y in xs ==> key(y) != k
    ensures LastWithKey(key, xs, k) == None
  {
    if xs != [] {
      assert forall y :: y in xs[..|xs| - 1] ==> y in xs;
      LastWithKeyAbsent(key, xs[..|xs| - 1], k);
    }
  }

  /** REPLACE with a key the table does not have adds exactly one row. */
  lemma {:induction false} UpsertNewKey<T>(key: T -> int, rows: seq<T>, x: T)
    requires Ordered(key, rows) && Find(key, rows, key(x)) == None
    ensures multiset(Upsert(key, rows, x)) == multiset(rows) + multiset{x}
  {
    if rows != [] && key(x) > key(rows[0]) {
      UpsertNewKey(key, rows[1..], x);
      assert rows == [rows[0]] + rows[1..];
    } else if rows != [] {
      assert key(x) != key(rows[0]);
    }
  }

  /** A row whose key exceeds every key in the table goes at the end. */
  lemma {:induction false} UpsertGreatest<T>(key: T -> int, rows: seq<T>, x: T)
    requires forall i :: 0 <= i < |rows| ==> key(rows[i]) < key(x)
    ensures Upsert(key, rows, x) == rows + [x]
  {
    if rows != [] {
      UpsertGreatest(key, rows[1..], x);
      assert rows == [rows[0]] + rows[1..];
    }
  }

  /** An ordered table holds one row per key. */
  lemma {:induction false} KeysCount<T>(key: T -> int, rows: seq<T>)
    requires Ordered(key, rows)
    ensures |Keys(key, rows)| == |rows|
  {
    if rows != [] {
      KeysCount(key, rows[1..]);
      FindSound(key, rows[1..], key(rows[0]));
      NoSmallerKey(key, rows, key(rows[0]));
    }
  }

  /** After REPLACE the table has the old keys and the key of `x`. */
  lemma UpsertKeys<T>(key: T -> int, rows: seq<T>, x: T)
    requires Ordered(key, rows)
    ensures Keys(key, Upsert(key, rows, x)) == Keys(key, rows) + {key(x)}
  {
    UpsertFind(key, rows, x);
    forall k ensures k in Keys(key, Upsert(key, rows, x)) <==> k in Keys(key, rows) + {key(x)} {
      FindSound(key, Upsert(key, rows, x), k);
      FindSound(key, rows, k);
    }
  }

  /** After DELETE the table has the old keys except `k`. */
  lemma DeleteKeys<T>(key: T -> int, rows: seq<T>, k: int)
    requires Ordered(key, rows)
    ensures Keys(key, Delete(key, rows, k)) == Keys(key, rows) - {k}
  {
    DeleteFind(key, rows, k);
    forall j ensures j in Keys(key, Delete(key, rows, k)) <==> j in Keys(key, rows) - {k} {
      FindSound(key, Delete(key, rows, k), j);
      FindSound(key, rows, j);
    }
  }

  /** REPLACE with a row the table already holds changes nothing. */
  lemma UpsertPresent<T>(key: T -> int, rows: seq<T>, x: T)
    requires Ordered(key, rows) && Find(key, rows, key(x)) == Some(x)
    ensures Upsert(key, rows, x) == rows
  {
    UpsertFind(key, rows, x);
    Extensionality(key, Upsert(key, rows, x), rows);
  }

  /** DELETE of a key the table does not hold changes nothing. */
  lemma DeleteAbsent<T>(key: T -> int, rows: seq<T>, k: int)
    requires Ordered(key, rows) && Find(key, rows, k) == None
    ensures Delete(key, rows, k) == rows
  {
    DeleteFind(key, rows, k);
    Extensionality(key, Delete(key, rows, k), rows);
  }

  /** A key is in the table exactly when some row carries it. */
  lemma {:induction false} KeysIndexed<T>(key: T -> int, rows: seq<T>, k: int)
    ensures k in Keys(key, rows) <==> exists i :: 0 <= i < |rows| && key(rows[i]) == k
  {
    if rows != [] {
      KeysIndexed(key, rows[1..], k);
      if exists i :: 0 <= i < |rows[1..]| && key(rows[1..][i]) == k {
        var i :| 0 <= i < |rows[1..]| && key(rows[1..][i]) == k;
        assert key(rows[i + 1]) == k;
      }
      if exists i :: 0 <= i < |rows| && key(rows[i]) == k {
        var i :| 0 <= i < |rows| && key(rows[i]) == k;
        if i > 0 {
          assert key(rows[1..][i - 1]) == k;
        }
      }
    }
  }
}
