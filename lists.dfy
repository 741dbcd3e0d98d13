/**
 * The array operations the application uses on its tables: `filter`, `findIndex`,
 * `find`, `includes` and `Array.from(new Set(...))`, together with the
 * "order-preserving subsequence" relation that filters establish.
 */
module Lists {
  import opened Wrappers

  /** `a` is `b` with some elements dropped and the rest in their original order. */
  predicate IsSubseq<T(==)>(a: seq<T>, b: seq<T>)
    decreases |b|
  {
    if a == [] then true
    else if b == [] then false
    else if a[0] == b[0] then IsSubseq(a[1..], b[1..])
    else IsSubseq(a, b[1..])
  }

  lemma {:induction false} IsSubseqRefl<T>(s: seq<T>)
    ensures IsSubseq(s, s)
  {
    if s != [] { IsSubseqRefl(s[1..]); }
  }

  /** Putting an extra element in front of the longer sequence keeps the relation. */
  lemma {:induction false} IsSubseqSkip<T>(a: seq<T>, b: seq<T>, y: T)
    requires IsSubseq(a, b)
    ensures IsSubseq(a, [y] + b)
    decreases |b|, 1
  {
    assert ([y] + b)[1..] == b;
    if a != [] && a[0] == y {
      IsSubseqDropHead(a, b);
    }
  }

  /** Dropping the first element of the shorter sequence keeps the relation. */
  lemma {:induction false} IsSubseqDropHead<T>(a: seq<T>, b: seq<T>)
    requires a != [] && IsSubseq(a, b)
    ensures IsSubseq(a[1..], b)
    decreases |b|, 0
  {
    assert [b[0]] + b[1..] == b;
    if a[0] == b[0] {
      IsSubseqSkip(a[1..], b[1..], b[0]);
    } else {
      IsSubseqDropHead(a, b[1..]);
      IsSubseqSkip(a[1..], b[1..], b[0]);
    }
  }

  /** Being an order-preserving subsequence is transitive. */
  lemma {:induction false} IsSubseqTrans<T>(a: seq<T>, b: seq<T>, c: seq<T>)
    requires IsSubseq(a, b) && IsSubseq(b, c)
    ensures IsSubseq(a, c)
    decreases |c|
  {
    if a == [] || c == [] {
    } else if b[0] == c[0] {
      if a[0] == b[0] {
        IsSubseqTrans(a[1..], b[1..], c[1..]);
      } else {
        IsSubseqTrans(a, b[1..], c[1..]);
      }
    } else {
      IsSubseqTrans(a, b, c[1..]);
      if a[0] == c[0] {
        IsSubseqDropHead(a, c[1..]);
      }
    }
  }

  /** Every element of a subsequence comes from the longer sequence. */
  lemma {:induction false} IsSubseqIn<T>(a: seq<T>, b: seq<T>, x: T)
    requires IsSubseq(a, b) && x in a
    ensures x in b
    decreases |b|
  {
    if a[0] == b[0] {
      if x != a[0] { IsSubseqIn(a[1..], b[1..], x); }
    } else {
      IsSubseqIn(a, b[1..], x);
    }
  }

  /** `s.filter(p)`: the elements satisfying `p`, in their original order. */
  function Filter<T>(s: seq<T>, p: T -> bool): (r: seq<T>)
    ensures |r| <= |s|
    ensures forall x :: x in r ==> x in s && p(x)
    ensures forall x :: x in s && p(x) ==> x in r
    ensures IsSubseq(r, s)
  {
    if s == [] then []
    else if p(s[0]) then [s[0]] + Filter(s[1..], p)
    else Filter(s[1..], p)
  }

  /** A filter only looks at its predicate on the elements actually present. */
  lemma {:induction false} FilterCongruent<T>(s: seq<T>, p: T -> bool, q: T -> bool)
    requires forall x :: x in s ==> p(x) == q(x)
    ensures Filter(s, p) == Filter(s, q)
  {
    if s != [] { FilterCongruent(s[1..], p, q); }
  }

  /** Two filters in a row are one filter on the conjunction. */
  lemma {:induction false} FilterFilter<T>(s: seq<T>, p: T -> bool, q: T -> bool)
    ensures Filter(Filter(s, p), q) == Filter(s, x => p(x) && q(x))
  {
    if s != [] { FilterFilter(s[1..], p, q); }
  }

  /** The order of two filters does not matter. */
  lemma {:induction false} FilterCommute<T>(s: seq<T>, p: T -> bool, q: T -> bool)
    ensures Filter(Filter(s, p), q) == Filter(Filter(s, q), p)
  {
    if s != [] { FilterCommute(s[1..], p, q); }
  }

  /** A filter that keeps everything returns the sequence unchanged. */
  lemma {:induction false} FilterAll<T>(s: seq<T>, p: T -> bool)
    requires forall x :: x in s ==> p(x)
    ensures Filter(s, p) == s
  {
    if s != [] { FilterAll(s[1..], p); }
  }

  /** A filter that rejects every element leaves nothing. */
  lemma {:induction false} FilterNone<T>(s: seq<T>, p: T -> bool)
    requires forall x :: x in s ==> !p(x)
    ensures Filter(s, p) == []
  {
    if s != [] {
      assert forall x :: x in s[1..] ==> x in s;
      FilterNone(s[1..], p);
    }
  }

  /** Filtering distributes over concatenation. */
  lemma {:induction false} FilterConcat<T>(a: seq<T>, b: seq<T>, p: T -> bool)
    ensures Filter(a + b, p) == Filter(a, p) + Filter(b, p)
  {
    if a == [] {
      assert a + b == b;
    } else {
      assert (a + b)[1..] == a[1..] + b;
      FilterConcat(a[1..], b, p);
    }
  }

  /** `s.findIndex(p)`: the first index whose element satisfies `p`, or -1. */
  function FirstIndex<T>(s: seq<T>, p: T -> bool): (r: int)
    ensures -1 <= r < |s|
    ensures r == -1 <==> forall i :: 0 <= i < |s| ==> !p(s[i])
    ensures r >= 0 ==> p(s[r]) && forall i :: 0 <= i < r ==> !p(s[i])
  {
    if s == [] then -1
    else if p(s[0]) then 0
    else
      var k := FirstIndex(s[1..], p);
      if k == -1 then -1 else k + 1
  }

  /** `s.find(p)`: the first element satisfying `p`, if any. */
  function Find<T>(s: seq<T>, p: T -> bool): (r: Option<T>)
    ensures r.None? <==> forall x :: x in s ==> !p(x)
    ensures r.Some? ==> r.value == s[FirstIndex(s, p)] && r.value in s && p(r.value)
  {
    var k := FirstIndex(s, p);
    if k == -1 then None else Some(s[k])
  }

  /** The elements of a sequence appear in its first `|s|` positions without repetition. */
  predicate NoDuplicates<T(==)>(s: seq<T>) {
    forall i, j :: 0 <= i < j < |s| ==> s[i] != s[j]
  }

  /** The index of the first occurrence of `x` in `s`. */
  function IndexOf<T(==)>(s: seq<T>, x: T): (k: nat)
    requires x in s
    ensures k < |s| && s[k] == x && x !in s[..k]
  {
    if s[0] == x then 0 else 1 + IndexOf(s[1..], x)
  }

  /**
   * `Array.from(new Set(s))`: the distinct elements of `s`, each kept at its first
   * occurrence (a JavaScript Set iterates in insertion order).
   */
  function Distinct<T(==)>(s: seq<T>): (r: seq<T>)
    ensures NoDuplicates(r)
    ensures forall x :: x in r ==> x in s
    ensures forall x :: x in s ==> x in r
    ensures IsSubseq(r, s)
    decreases |s|
  {
    if s == [] then []
    else
      var d := Distinct(s[..|s| - 1]);
      var x := s[|s| - 1];
      assert s == s[..|s| - 1] + [x];
      var r := if x in d then d else d + [x];
      IsSubseqSnoc(d, s[..|s| - 1], x);
      r
  }

  lemma {:induction false} IsSubseqSnoc<T>(a: seq<T>, b: seq<T>, x: T)
    requires IsSubseq(a, b)
    ensures IsSubseq(a, b + [x]) && IsSubseq(a + [x], b + [x])
    decreases |b|
  {
    if a == [] {
      assert a + [x] == [x];
      IsSubseqTail([x], b);
      assert IsSubseq(a + [x], b + [x]);
    } else if a[0] == b[0] {
      IsSubseqSnoc(a[1..], b[1..], x);
      assert (a + [x])[1..] == a[1..] + [x];
      assert (b + [x])[1..] == b[1..] + [x];
    } else {
      IsSubseqSnoc(a, b[1..], x);
      assert (b + [x])[1..] == b[1..] + [x];
    }
  }

  lemma {:induction false} IsSubseqTail<T>(a: seq<T>, b: seq<T>)
    ensures IsSubseq(a, b + a)
    decreases |b|
  {
    if b == [] {
      assert b + a == a;
      IsSubseqRefl(a);
    } else {
      IsSubseqTail(a, b[1..]);
      assert [b[0]] + (b[1..] + a) == b + a;
      IsSubseqSkip(a, b[1..] + a, b[0]);
    }
  }

  /** The distinct elements come out in the order of their first occurrences. */
  lemma {:induction false} DistinctFirstOccurrenceOrder<T>(s: seq<T>)
    ensures forall i, j :: 0 <= i < j < |Distinct(s)| ==>
      IndexOf(s, Distinct(s)[i]) < IndexOf(s, Distinct(s)[j])
    decreases |s|
  {
    if s != [] {
      var init := s[..|s| - 1];
      var d := Distinct(init);
      var x := s[|s| - 1];
      DistinctFirstOccurrenceOrder(init);
      assert s == init + [x];
      forall y | y in init ensures IndexOf(s, y) == IndexOf(init, y) {
        IndexOfPrefix(init, [x], y);
      }
      if x !in d {
        assert x !in init;
        assert forall k :: 0 <= k < |init| ==> s[k] == init[k] && init[k] != x;
        var r := d + [x];
        forall i, j | 0 <= i < j < |r| ensures IndexOf(s, r[i]) < IndexOf(s, r[j]) {
          assert r[i] == d[i] && d[i] in init;
          if j < |d| {
            assert r[j] == d[j] && d[j] in init;
          } else {
            assert IndexOf(init, d[i]) < |init|;
          }
        }
      } else {
        forall i, j | 0 <= i < j < |d| ensures IndexOf(s, d[i]) < IndexOf(s, d[j]) {
          assert d[i] in init && d[j] in init;
        }
      }
    }
  }

  lemma {:induction false} IndexOfPrefix<T>(a: seq<T>, b: seq<T>, x: T)
    requires x in a
    ensures x in a + b && IndexOf(a + b, x) == IndexOf(a, x)
  {
    if a[0] != x {
      assert (a + b)[1..] == a[1..] + b;
      IndexOfPrefix(a[1..], b, x);
    }
  }
}
