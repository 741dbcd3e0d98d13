/**
 * The string operations the application relies on: `toLowerCase`, `toUpperCase`,
 * `includes`, `startsWith`, `trim` and `replace` with a one-character pattern.
 * Case mapping is ASCII only.
 */
module Text {

  predicate IsUpperAscii(c: char) { 'A' <= c <= 'Z' }
  predicate IsLowerAscii(c: char) { 'a' <= c <= 'z' }

  function LowerChar(c: char): char {
    if IsUpperAscii(c) then (c as int + 32) as char else c
  }

  function UpperChar(c: char): char {
    if IsLowerAscii(c) then (c as int - 32) as char else c
  }

  /** `s.toLowerCase()`: every ASCII capital is mapped to its small letter. */
  function Lower(s: string): (r: string)
    ensures |r| == |s|
    ensures forall i :: 0 <= i < |s| ==> r[i] == LowerChar(s[i])
    ensures forall i :: 0 <= i < |r| ==> !IsUpperAscii(r[i])
  {
    if s == [] then [] else [LowerChar(s[0])] + Lower(s[1..])
  }

  /** `s.toUpperCase()`: every ASCII small letter is mapped to its capital. */
  function Upper(s: string): (r: string)
    ensures |r| == |s|
    ensures forall i :: 0 <= i < |s| ==> r[i] == UpperChar(s[i])
    ensures forall i :: 0 <= i < |r| ==> !IsLowerAscii(r[i])
  {
    if s == [] then [] else [UpperChar(s[0])] + Upper(s[1..])
  }

  /** Lower-casing twice is lower-casing once. */
  lemma LowerIdempotent(s: string)
    ensures Lower(Lower(s)) == Lower(s)
  {
    var l := Lower(s);
    assert forall i :: 0 <= i < |l| ==> LowerChar(l[i]) == l[i] by {
      forall i | 0 <= i < |l| ensures LowerChar(l[i]) == l[i] {
        assert !IsUpperAscii(l[i]);
      }
    }
  }

  function IsPrefix(p: string, s: string): bool {
    |p| <= |s| && s[..|p|] == p
  }

  /** `s.startsWith(p)`. */
  function StartsWith(s: string, p: string): bool {
    IsPrefix(p, s)
  }

  /** `t` occurs in `s` starting at index `i`. */
  predicate OccursAt(s: string, t: string, i: int) {
    0 <= i <= |s| - |t| && s[i..i + |t|] == t
  }

  /** `s.includes(t)`: some position of `s` starts a copy of `t`. */
  function Contains(s: string, t: string): (r: bool)
    ensures r <==> exists i :: OccursAt(s, t, i)
    decreases |s|
  {
    if IsPrefix(t, s) then
      assert OccursAt(s, t, 0);
      true
    else if s == [] then
      false
    else
      var rest := Contains(s[1..], t);
      assert rest ==> exists i :: OccursAt(s, t, i) by {
        if rest {
          var i :| OccursAt(s[1..], t, i);
          assert s[i + 1..i + 1 + |t|] == t;
          assert OccursAt(s, t, i + 1);
        }
      }
      assert (exists i :: OccursAt(s, t, i)) ==> rest by {
        if exists i :: OccursAt(s, t, i) {
          var i :| OccursAt(s, t, i);
          assert i != 0;
          assert s[1..][i - 1..i - 1 + |t|] == t;
          assert OccursAt(s[1..], t, i - 1);
        }
      }
      rest
  }

  /** A case-sensitive match is also found after lower-casing both sides. */
  lemma ContainsLower(s: string, t: string)
    requires Contains(s, t)
    ensures Contains(Lower(s), Lower(t))
  {
    var i :| OccursAt(s, t, i);
    var ls, lt := Lower(s), Lower(t);
    assert ls[i..i + |t|] == lt by {
      forall k | 0 <= k < |t| ensures ls[i..i + |t|][k] == lt[k] {
        assert s[i + k] == s[i..i + |t|][k] == t[k];
      }
    }
    assert OccursAt(ls, lt, i);
  }

  /**
   * The characters `String.prototype.trim` removes: the ECMAScript WhiteSpace
   * and LineTerminator code points.
   */
  predicate IsSpace(c: char) {
    c == ' ' || c == '\t' || c == '\n' || c == '\r' || c == '\U{000B}' || c == '\U{000C}'
    || c == '\U{00A0}' || c == '\U{1680}' || ('\U{2000}' <= c <= '\U{200A}')
    || c == '\U{2028}' || c == '\U{2029}' || c == '\U{202F}' || c == '\U{205F}'
    || c == '\U{3000}' || c == '\U{FEFF}'
  }

  /** Every character of `t` is white space. */
  predicate AllSpace(t: string) {
    forall k :: 0 <= k < |t| ==> IsSpace(t[k])
  }

  /** `r` is `s` with a white run cut off the front and another off the back. */
  predicate CutFrom(s: string, r: string) {
    exists i, j :: 0 <= i <= j <= |s| && r == s[i..j] && AllSpace(s[..i]) && AllSpace(s[j..])
  }

  /**
   * `s.trim()`: leading and trailing white space is cut off, one character at
   * a time, until neither end is white space.
   */
  function Trim(s: string): (r: string)
    ensures CutFrom(s, r)
    ensures r != [] ==> !IsSpace(r[0]) && !IsSpace(r[|r| - 1])
    decreases |s|
  {
    if s != [] && IsSpace(s[0]) then
      var r := Trim(s[1..]);
      CutFromDropFirst(s, r);
      r
    else if s != [] && IsSpace(s[|s| - 1]) then
      var r := Trim(s[..|s| - 1]);
      CutFromDropLast(s, r);
      r
    else
      assert s[0..|s|] == s && s[..0] == [] && s[|s|..] == [];
      s
  }

  /** A white first character joins the run cut off the front. */
  lemma CutFromDropFirst(s: string, r: string)
    requires s != [] && IsSpace(s[0]) && CutFrom(s[1..], r)
    ensures CutFrom(s, r)
  {
    var t := s[1..];
    var i, j :| 0 <= i <= j <= |t| && r == t[i..j] && AllSpace(t[..i]) && AllSpace(t[j..]);
    assert r == s[i + 1..j + 1];
    var front := s[..i + 1];
    assert AllSpace(front) by {
      forall k | 0 <= k < |front| ensures IsSpace(front[k]) {
        if k > 0 { assert front[k] == t[..i][k - 1]; }
      }
    }
    assert s[j + 1..] == t[j..];
    assert 0 <= i + 1 <= j + 1 <= |s| && r == s[i + 1..j + 1] && AllSpace(s[..i + 1]) && AllSpace(s[j + 1..]);
  }

  /** A white last character joins the run cut off the back. */
  lemma CutFromDropLast(s: string, r: string)
    requires s != [] && IsSpace(s[|s| - 1]) && CutFrom(s[..|s| - 1], r)
    ensures CutFrom(s, r)
  {
    var t := s[..|s| - 1];
    var i, j :| 0 <= i <= j <= |t| && r == t[i..j] && AllSpace(t[..i]) && AllSpace(t[j..]);
    assert r == s[i..j];
    assert s[..i] == t[..i];
    var back := s[j..];
    assert AllSpace(back) by {
      forall k | 0 <= k < |back| ensures IsSpace(back[k]) {
        if k < |t| - j { assert back[k] == t[j..][k]; }
      }
    }
    assert 0 <= i <= j <= |s| && r == s[i..j] && AllSpace(s[..i]) && AllSpace(s[j..]);
  }

  /** `s.trim()` is empty exactly when `s` is blank. */
  lemma {:induction false} TrimEmptyIffBlank(s: string)
    ensures Trim(s) == [] <==> forall i :: 0 <= i < |s| ==> IsSpace(s[i])
    decreases |s|
  {
    if s != [] && IsSpace(s[0]) {
      var t := s[1..];
      TrimEmptyIffBlank(t);
      assert forall i :: 1 <= i < |s| ==> s[i] == t[i - 1];
    } else if s != [] && IsSpace(s[|s| - 1]) {
      var t := s[..|s| - 1];
      TrimEmptyIffBlank(t);
      assert forall i :: 0 <= i < |t| ==> s[i] == t[i];
    }
  }

  /** Trimming an already trimmed string changes nothing. */
  lemma TrimIdempotent(s: string)
    ensures Trim(Trim(s)) == Trim(s)
  {
  }

  /** The index of the first `c` in `s`, or `|s|` when there is none. */
  function FirstCharIndex(s: string, c: char): (k: nat)
    ensures k <= |s|
    ensures k < |s| ==> s[k] == c
    ensures forall j :: 0 <= j < k ==> s[j] != c
  {
    if s == [] then 0 else if s[0] == c then 0 else 1 + FirstCharIndex(s[1..], c)
  }

  /** The first `c` sits at `k` when `s[k]` is one and no earlier character is. */
  lemma {:induction false} FirstCharIndexIs(s: string, c: char, k: nat)
    requires k < |s| && s[k] == c
    requires forall j :: 0 <= j < k ==> s[j] != c
    ensures FirstCharIndex(s, c) == k
  {
    if k > 0 {
      assert s[1..][k - 1] == c;
      FirstCharIndexIs(s[1..], c, k - 1);
    }
  }

  /** `s.replace(c, d)` with a one-character string pattern: only the first `c` is replaced. */
  function ReplaceFirst(s: string, c: char, d: char): (r: string)
    ensures |r| == |s|
    ensures c !in s ==> r == s
    ensures forall k :: 0 <= k < |s| && s[k] == c && (forall j :: 0 <= j < k ==> s[j] != c) ==>
      r == s[..k] + [d] + s[k + 1..]
  {
    var k := FirstCharIndex(s, c);
    if k == |s| then s else s[..k] + [d] + s[k + 1..]
  }

  function DigitChar(d: nat): char
    requires d < 10
  {
    ('0' as int + d) as char
  }

  /** The decimal spelling of a non-negative integer, as a template literal prints it. */
  function NatToString(n: nat): (r: string)
    ensures r != []
    ensures forall i :: 0 <= i < |r| ==> '0' <= r[i] <= '9'
    ensures |r| == 1 <==> n < 10
  {
    if n < 10 then [DigitChar(n)] else NatToString(n / 10) + [DigitChar(n % 10)]
  }

  /** Different numbers are spelled differently. */
  lemma {:induction false} NatToStringInjective(m: nat, n: nat)
    requires NatToString(m) == NatToString(n)
    ensures m == n
  {
    var s := NatToString(m);
    if m >= 10 && n >= 10 {
      assert s[..|s| - 1] == NatToString(m / 10);
      assert NatToString(n) [..|s| - 1] == NatToString(n / 10);
      NatToStringInjective(m / 10, n / 10);
    }
  }
}
