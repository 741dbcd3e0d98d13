/**
 * `Array.prototype.sort` with a numeric comparator `(a, b) => key(b) - key(a)`.
 * The ECMAScript sort is stable, so the model is a stable insertion sort: elements
 * with equal keys keep their relative order. An ascending sort by `key` is the
 * descending sort by `-key`.
 */
module Sorting {

  /** Newest (largest key) first. */
  predicate SortedDesc<T>(s: seq<T>, key: T -> int) {
    forall i, j :: 0 <= i < j < |s| ==> key(s[i]) >= key(s[j])
  }

  /** Places `x` before the first element whose key is not larger than its own. */
  function Insert<T(==)>(x: T, s: seq<T>, key: T -> int): (r: seq<T>)
    ensures |r| == |s| + 1
    ensures multiset(r) == multiset(s) + multiset{x}
  {
    if s == [] then [x]
    else if key(s[0]) > key(x) then
      assert s == [s[0]] + s[1..];
      [s[0]] + Insert(x, s[1..], key)
    else
      [x] + s
  }

  lemma {:induction false} InsertElements<T>(x: T, s: seq<T>, key: T -> int)
    ensures forall y :: y in Insert(x, s, key) ==> y == x || y in s
  {
    if s != [] && key(s[0]) > key(x) {
      InsertElements(x, s[1..], key);
    }
  }

  lemma HeadIsLargest<T>(s: seq<T>, key: T -> int)
    requires s != [] && SortedDesc(s, key)
    ensures forall y :: y in s ==> key(s[0]) >= key(y)
  {
    forall y | y in s ensures key(s[0]) >= key(y) {
      var j :| 0 <= j < |s| && s[j] == y;
      if j > 0 { assert key(s[0]) >= key(s[j]); }
    }
  }

  lemma SortedCons<T>(h: T, t: seq<T>, key: T -> int)
    requires SortedDesc(t, key)
    requires forall y :: y in t ==> key(h) >= key(y)
    ensures SortedDesc([h] + t, key)
  {
    var r := [h] + t;
    forall i, j | 0 <= i < j < |r| ensures key(r[i]) >= key(r[j]) {
      if i == 0 {
        assert r[j] == t[j - 1] && t[j - 1] in t;
      } else {
        assert r[i] == t[i - 1] && r[j] == t[j - 1];
      }
    }
  }

  lemma {:induction false} InsertSorted<T>(x: T, s: seq<T>, key: T -> int)
    requires SortedDesc(s, key)
    ensures SortedDesc(Insert(x, s, key), key)
  {
    if s == [] {
    } else if key(s[0]) > key(x) {
      var rest := Insert(x, s[1..], key);
      assert SortedDesc(s[1..], key) by {
        forall i, j | 0 <= i < j < |s[1..]| ensures key(s[1..][i]) >= key(s[1..][j]) {
          assert s[1..][i] == s[i + 1] && s[1..][j] == s[j + 1];
        }
      }
      InsertSorted(x, s[1..], key);
      InsertElements(x, s[1..], key);
      HeadIsLargest(s, key);
      assert forall y :: y in s[1..] ==> y in s;
      SortedCons(s[0], rest, key);
    } else {
      HeadIsLargest(s, key);
      SortedCons(x, s, key);
    }
  }

  /** The stable sort, largest key first. */
  function SortDesc<T(==)>(s: seq<T>, key: T -> int): (r: seq<T>)
    ensures |r| == |s|
    ensures multiset(r) == multiset(s)
    ensures SortedDesc(r, key)
  {
    if s == [] then []
    else
      assert s == [s[0]] + s[1..];
      var rest := SortDesc(s[1..], key);
      InsertSorted(s[0], rest, key);
      Insert(s[0], rest, key)
  }

  /** Sequences with the same multiset have the same elements. */
  lemma SameElements<T>(a: seq<T>, b: seq<T>)
    requires multiset(a) == multiset(b)
    ensures forall x :: x in a <==> x in b
  {
    forall x ensures x in a <==> x in b {
      assert x in a <==> x in multiset(a);
      assert x in b <==> x in multiset(b);
    }
  }

  /** Sorting in ascending order of `key`. */
  function SortAsc<T(==)>(s: seq<T>, key: T -> int): (r: seq<T>)
    ensures |r| == |s|
    ensures multiset(r) == multiset(s)
    ensures forall x :: x in r ==> x in s
    ensures forall x :: x in s ==> x in r
    ensures forall i, j :: 0 <= i < j < |r| ==> key(r[i]) <= key(r[j])
  {
    var r := SortDesc(s, x => -key(x));
    assert forall i, j :: 0 <= i < j < |r| ==> -key(r[i]) >= -key(r[j]);
    forall y | y in r ensures y in s { assert y in multiset(r); }
    forall y | y in s ensures y in r { assert y in multiset(s); }
    r
  }

  lemma {:induction false} InsertBeforeSmaller<T>(x: T, t: seq<T>, m: T, key: T -> int)
    requires key(x) >= key(m)
    ensures Insert(x, t + [m], key) == Insert(x, t, key) + [m]
  {
    if t == [] {
      assert t + [m] == [m];
    } else {
      assert (t + [m])[1..] == t[1..] + [m];
      if key(t[0]) > key(x) {
        InsertBeforeSmaller(x, t[1..], m, key);
      }
    }
  }

  /**
   * Appending an element whose key is no larger than any other key and then sorting
   * gives the sorted sequence followed by that element.
   */
  lemma {:induction false} SortDescAppendSmallest<T>(s: seq<T>, m: T, key: T -> int)
    requires forall y :: y in s ==> key(y) >= key(m)
    ensures SortDesc(s + [m], key) == SortDesc(s, key) + [m]
  {
    if s == [] {
      assert s + [m] == [m];
    } else {
      assert (s + [m])[0] == s[0];
      assert (s + [m])[1..] == s[1..] + [m];
      SortDescAppendSmallest(s[1..], m, key);
      InsertBeforeSmaller(s[0], SortDesc(s[1..], key), m, key);
    }
  }

  /** In an ascending sort, an element whose key is at least every other key goes last. */
  lemma SortAscAppendLargest<T>(s: seq<T>, m: T, key: T -> int)
    requires forall y :: y in s ==> key(y) <= key(m)
    ensures SortAsc(s + [m], key) == SortAsc(s, key) + [m]
  {
    SortDescAppendSmallest(s, m, x => -key(x));
  }

  /** An element whose key is strictly larger than every other key ends up in front. */
  lemma {:induction false} SortDescLargestFirst<T>(s: seq<T>, x: T, key: T -> int)
    requires x in s
    requires forall y :: y in s && y != x ==> key(y) < key(x)
    ensures SortDesc(s, key) != [] && SortDesc(s, key)[0] == x
  {
    var r := SortDesc(s, key);
    assert x in multiset(r);
    var k :| 0 <= k < |r| && r[k] == x;
    assert r[0] in multiset(s);
    assert key(r[0]) >= key(r[k]);
  }

  /** No two elements share a `k`. */
  predicate DistinctBy<T, K(==)>(s: seq<T>, k: T -> K) {
    forall i, j :: 0 <= i < j < |s| ==> k(s[i]) != k(s[j])
  }

  lemma {:induction false} InsertDistinct<T, K>(x: T, t: seq<T>, key: T -> int, k: T -> K)
    requires DistinctBy(t, k)
    requires forall y :: y in t ==> k(y) != k(x)
    ensures DistinctBy(Insert(x, t, key), k)
  {
    if t != [] && key(t[0]) > key(x) {
      var tail := t[1..];
      assert DistinctBy(tail, k) by {
        forall i, j | 0 <= i < j < |tail| ensures k(tail[i]) != k(tail[j]) {
          assert tail[i] == t[i + 1] && tail[j] == t[j + 1];
        }
      }
      InsertDistinct(x, tail, key, k);
      InsertElements(x, tail, key);
      var rest := Insert(x, tail, key);
      var r := [t[0]] + rest;
      forall y | y in rest ensures k(y) != k(t[0]) {
        if y != x {
          var j :| 0 <= j < |tail| && tail[j] == y;
          assert t[j + 1] == y;
        }
      }
      forall i, j | 0 <= i < j < |r| ensures k(r[i]) != k(r[j]) {
        if i == 0 {
          assert r[j] == rest[j - 1] && rest[j - 1] in rest;
        } else {
          assert r[i] == rest[i - 1] && r[j] == rest[j - 1];
        }
      }
    } else {
      var r := [x] + t;
      forall i, j | 0 <= i < j < |r| ensures k(r[i]) != k(r[j]) {
        if i == 0 {
          assert r[j] == t[j - 1] && t[j - 1] in t;
        } else {
          assert r[i] == t[i - 1] && r[j] == t[j - 1];
        }
      }
    }
  }

  /** Sorting keeps elements with distinct `k` distinct. */
  lemma {:induction false} SortDescDistinct<T, K>(s: seq<T>, key: T -> int, k: T -> K)
    requires DistinctBy(s, k)
    ensures DistinctBy(SortDesc(s, key), k)
  {
    if s != [] {
      var tail := s[1..];
      assert DistinctBy(tail, k) by {
        forall i, j | 0 <= i < j < |tail| ensures k(tail[i]) != k(tail[j]) {
          assert tail[i] == s[i + 1] && tail[j] == s[j + 1];
        }
      }
      SortDescDistinct(tail, key, k);
      var rest := SortDesc(tail, key);
      forall y | y in rest ensures k(y) != k(s[0]) {
        assert y in multiset(rest);
        var j :| 0 <= j < |tail| && tail[j] == y;
        assert s[j + 1] == y;
      }
      InsertDistinct(s[0], rest, key, k);
    }
  }
}
