/** Kotlin's `filter` on lists: the elements that satisfy a predicate, in their order. */
module Sequences {

  function Filter<T>(p: T -> bool, s: seq<T>): (r: seq<T>)
    ensures |r| <= |s|
    ensures forall i :: 0 <= i < |r| ==> r[i] in s && p(r[i])
    ensures forall i :: 0 <= i < |s| && p(s[i]) ==> s[i] in r
  {
    if s == [] then [] else (if p(s[0]) then [s[0]] else []) + Filter(p, s[1..])
  }

  /** Filtering keeps the multiplicity of every kept element and drops the rest. */
  lemma {:induction false} FilterMultiset<T>(p: T -> bool, s: seq<T>)
    ensures forall x :: x in s ==> multiset(Filter(p, s))[x] == if p(x) then multiset(s)[x] else 0
    ensures multiset(Filter(p, s)) <= multiset(s)
  {
    if s != [] {
      var rest := Filter(p, s[1..]);
      var head := if p(s[0]) then [s[0]] else [];
      FilterMultiset(p, s[1..]);
      assert Filter(p, s) == head + rest;
      assert s == [s[0]] + s[1..];
      assert multiset(s) == multiset{s[0]} + multiset(s[1..]);
      assert multiset(Filter(p, s)) == multiset(head) + multiset(rest);
      forall x | x in s ensures multiset(Filter(p, s))[x] == if p(x) then multiset(s)[x] else 0 {
        if x !in s[1..] {
          assert multiset(rest)[x] <= multiset(s[1..])[x] == 0;
        }
      }
    }
  }

  /** When every element qualifies, nothing is dropped. */
  lemma {:induction false} FilterKeepsAll<T>(p: T -> bool, s: seq<T>)
    requires forall i :: 0 <= i < |s| ==> p(s[i])
    ensures Filter(p, s) == s
  {
    if s != [] {
      FilterKeepsAll(p, s[1..]);
      assert s == [s[0]] + s[1..];
    }
  }

  /** Filtering a concatenation filters each part. */
  lemma {:induction false} FilterAppend<T>(p: T -> bool, a: seq<T>, b: seq<T>)
    ensures Filter(p, a + b) == Filter(p, a) + Filter(p, b)
  {
    if a != [] {
      FilterAppend(p, a[1..], b);
      assert (a + b)[1..] == a[1..] + b;
    } else {
      assert a + b == b;
    }
  }

  /** Filtering keeps the relative order of the kept elements: a relation that holds between
    * every earlier and later element of `s` still holds in the result. */
  lemma {:induction false} FilterKeepsOrder<T>(p: T -> bool, rel: (T, T) -> bool, s: seq<T>)
    requires forall i, j :: 0 <= i < j < |s| ==> rel(s[i], s[j])
    ensures forall i, j :: 0 <= i < j < |Filter(p, s)| ==> rel(Filter(p, s)[i], Filter(p, s)[j])
  {
    if s != [] {
      FilterKeepsOrder(p, rel, s[1..]);
      var rest := Filter(p, s[1..]);
      if p(s[0]) {
        forall k | 0 <= k < |rest| ensures rel(s[0], rest[k]) {
          var j :| 0 <= j < |s[1..]| && s[1..][j] == rest[k];
          assert s[j + 1] == rest[k];
        }
        var r := [s[0]] + rest;
        forall i, j | 0 <= i < j < |r| ensures rel(r[i], r[j]) {
          if i == 0 {
            assert r[j] == rest[j - 1];
          } else {
            assert r[i] == rest[i - 1] && r[j] == rest[j - 1];
          }
        }
      }
    }
  }
}
