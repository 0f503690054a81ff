/**
 * Kotlin's `sortedBy` / `sortedByDescending` (and the ORDER BY of a Room query):
 * a stable sort under a total preorder `le`, where `le(a, b)` means "a may come
 * before b". Elements that are tied (`le` both ways) keep their input order.
 */
module Sorting {

  /** `le` is total and transitive: it orders elements by some key, ties allowed. */
  ghost predicate TotalPreorder<T(!new)>(le: (T, T) -> bool) {
    && (forall a, b :: le(a, b) || le(b, a))
    && (forall a, b, c :: le(a, b) && le(b, c) ==> le(a, c))
  }

  predicate SortedBy<T>(le: (T, T) -> bool, s: seq<T>) {
    forall i, j :: 0 <= i < j < |s| ==> le(s[i], s[j])
  }

  /** `x` and `y` have equal keys. */
  predicate Tie<T>(le: (T, T) -> bool, x: T, y: T) {
    le(x, y) && le(y, x)
  }

  /** The elements of `s` whose key equals the key of `x`, in their order in `s`. */
  function Tied<T>(le: (T, T) -> bool, x: T, s: seq<T>): seq<T> {
    if s == [] then [] else (if Tie(le, x, s[0]) then [s[0]] else []) + Tied(le, x, s[1..])
  }

  /** Puts `x` in front of the first element it may precede. */
  function Insert<T>(le: (T, T) -> bool, x: T, s: seq<T>): seq<T> {
    if s == [] then [x]
    else if le(x, s[0]) then [x] + s
    else [s[0]] + Insert(le, x, s[1..])
  }

  /** Insertion sort; an element is inserted in front of the later elements it is tied with. */
  function Sort<T>(le: (T, T) -> bool, s: seq<T>): seq<T> {
    if s == [] then [] else Insert(le, s[0], Sort(le, s[1..]))
  }

  lemma {:induction false} InsertSorted<T(!new)>(le: (T, T) -> bool, x: T, s: seq<T>)
    requires TotalPreorder(le) && SortedBy(le, s)
    ensures SortedBy(le, Insert(le, x, s))
    ensures multiset(Insert(le, x, s)) == multiset(s) + multiset{x}
  {
    if s == [] {
    } else if le(x, s[0]) {
      assert [x] + s == Insert(le, x, s);
    } else {
      var rest := Insert(le, x, s[1..]);
      InsertSorted(le, x, s[1..]);
      assert s == [s[0]] + s[1..];
      forall y | y in rest ensures le(s[0], y) {
        assert y in multiset(rest);
      }
    }
  }

  /** Sort returns a sorted permutation of its input. */
  lemma {:induction false} SortSorted<T(!new)>(le: (T, T) -> bool, s: seq<T>)
    requires TotalPreorder(le)
    ensures SortedBy(le, Sort(le, s))
    ensures multiset(Sort(le, s)) == multiset(s)
  {
    if s != [] {
      SortSorted(le, s[1..]);
      InsertSorted(le, s[0], Sort(le, s[1..]));
      assert s == [s[0]] + s[1..];
    }
  }

  lemma {:induction false} InsertTied<T(!new)>(le: (T, T) -> bool, x: T, s: seq<T>, z: T)
    requires TotalPreorder(le)
    ensures Tied(le, z, Insert(le, x, s)) == (if Tie(le, z, x) then [x] + Tied(le, z, s) else Tied(le, z, s))
  {
    if s == [] {
      assert Tied(le, z, [x]) == (if Tie(le, z, x) then [x] else []) + Tied(le, z, []);
    } else if le(x, s[0]) {
      var r := [x] + s;
      assert r[0] == x && r[1..] == s;
    } else {
      var r := [s[0]] + Insert(le, x, s[1..]);
      assert r[0] == s[0] && r[1..] == Insert(le, x, s[1..]);
      InsertTied(le, x, s[1..], z);
    }
  }

  /** Stability: the elements with any one key appear in the output in their input order. */
  lemma {:induction false} SortStable<T(!new)>(le: (T, T) -> bool, s: seq<T>, z: T)
    requires TotalPreorder(le)
    ensures Tied(le, z, Sort(le, s)) == Tied(le, z, s)
  {
    if s != [] {
      var t := Sort(le, s[1..]);
      SortStable(le, s[1..], z);
      InsertTied(le, s[0], t, z);
      assert Sort(le, s) == Insert(le, s[0], t);
      assert Tied(le, z, s) == (if Tie(le, z, s[0]) then [s[0]] else []) + Tied(le, z, s[1..]);
    }
  }

  /** When no two distinct elements are tied, a sorted permutation is unique. */
  lemma {:induction false} SortedPermutationsEqual<T(!new)>(le: (T, T) -> bool, a: seq<T>, b: seq<T>)
    requires TotalPreorder(le)
    requires SortedBy(le, a) && SortedBy(le, b) && multiset(a) == multiset(b)
    requires forall x, y :: x in a && y in a && Tie(le, x, y) ==> x == y
    ensures a == b
    decreases |a|
  {
    assert |b| == |multiset(b)| == |a|;
    if a != [] {
      SameFirst(le, a, b);
      assert a == [a[0]] + a[1..] && b == [b[0]] + b[1..];
      assert multiset(a[1..]) == multiset(b[1..]) by {
        assert multiset(a) == multiset{a[0]} + multiset(a[1..]);
        assert multiset(b) == multiset{b[0]} + multiset(b[1..]);
        assert multiset(a[1..]) == multiset(a) - multiset{a[0]};
        assert multiset(b[1..]) == multiset(b) - multiset{b[0]};
      }
      assert forall x :: x in a[1..] ==> x in a;
      SortedPermutationsEqual(le, a[1..], b[1..]);
    }
  }

  lemma SameFirst<T(!new)>(le: (T, T) -> bool, a: seq<T>, b: seq<T>)
    requires TotalPreorder(le)
    requires SortedBy(le, a) && SortedBy(le, b) && multiset(a) == multiset(b) && a != []
    requires forall x, y :: x in a && y in a && Tie(le, x, y) ==> x == y
    ensures b != [] && a[0] == b[0]
  {
    assert |b| == |multiset(b)| == |a|;
    assert a[0] in multiset(b) && a[0] in b;
    assert b[0] in multiset(a) && b[0] in a;
    var i :| 0 <= i < |a| && a[i] == b[0];
    var j :| 0 <= j < |b| && b[j] == a[0];
    var x, y := a[0], b[0];
    assert le(x, x) || le(x, x);
    assert le(y, y) || le(y, y);
    assert le(a[0], a[i]) && le(b[0], b[j]);
    assert Tie(le, a[0], b[0]);
  }

  function Reverse<T>(s: seq<T>): seq<T> {
    if s == [] then [] else Reverse(s[1..]) + [s[0]]
  }

  lemma {:induction false} ReverseAt<T>(s: seq<T>)
    ensures |Reverse(s)| == |s|
    ensures forall i :: 0 <= i < |s| ==> Reverse(s)[i] == s[|s| - 1 - i]
    ensures multiset(Reverse(s)) == multiset(s)
  {
    if s != [] {
      ReverseAt(s[1..]);
      assert s == [s[0]] + s[1..];
    }
  }
}
