/**
 * The JavaScript string built-ins the modelled code relies on: `trim`, the regular-expression class `\s`,
 * `indexOf`/`lastIndexOf` of one character, `startsWith`, `includes`, removal of characters (`replace` with
 * a global pattern), case mapping, and the decimal rendering of a natural number in a template literal.
 */
module Text {

  /** White space in the sense of ECMAScript's WhiteSpace and LineTerminator productions: what `trim` removes and `\s` matches. */
  predicate IsSpace(c: char) {
    || c == ' ' || c == '\t' || c == '\n' || c == '\r' || c == '\U{000B}' || c == '\U{000C}'
    || c == '\U{00A0}' || c == '\U{1680}' || ('\U{2000}' <= c <= '\U{200A}')
    || c == '\U{2028}' || c == '\U{2029}' || c == '\U{202F}' || c == '\U{205F}'
    || c == '\U{3000}' || c == '\U{FEFF}'
  }

  /** Every character of `s` at a position in [lo, hi) is white space. */
  predicate SpaceBetween(s: string, lo: int, hi: int)
    requires 0 <= lo && hi <= |s|
  {
    forall k :: lo <= k < hi ==> IsSpace(s[k])
  }

  /** The first position at or after `i` that is not white space (`|s|` when there is none). */
  function SkipSpaceFrom(s: string, i: int): (r: int)
    requires 0 <= i <= |s|
    ensures i <= r <= |s| && SpaceBetween(s, i, r) && (r == |s| || !IsSpace(s[r]))
    decreases |s| - i
  {
    if i < |s| && IsSpace(s[i]) then SkipSpaceFrom(s, i + 1) else i
  }

  /** The end of `s[lo..j]` once its trailing white space is dropped. */
  function SkipSpaceBack(s: string, lo: int, j: int): (r: int)
    requires 0 <= lo <= j <= |s|
    ensures lo <= r <= j && SpaceBetween(s, r, j) && (r == lo || !IsSpace(s[r - 1]))
    decreases j
  {
    if j > lo && IsSpace(s[j - 1]) then SkipSpaceBack(s, lo, j - 1) else j
  }

  /** `String.prototype.trim`; what it keeps and drops is stated by `TrimMeaning`. */
  function Trim(s: string): (r: string)
    ensures |r| <= |s|
  {
    var i := SkipSpaceFrom(s, 0);
    s[i..SkipSpaceBack(s, i, |s|)]
  }

  /**
   * The trimmed string is what lies between a run of leading and a run of trailing white space; it neither
   * starts nor ends with white space, and it is empty exactly when `s` is all white space.
   */
  lemma TrimMeaning(s: string)
    ensures TrimmedAt(s, Trim(s), SkipSpaceFrom(s, 0))
    ensures Trim(s) == [] || (!IsSpace(Trim(s)[0]) && !IsSpace(Trim(s)[|Trim(s)| - 1]))
    ensures Trim(s) == [] <==> SpaceBetween(s, 0, |s|)
  {
    var i := SkipSpaceFrom(s, 0);
    var j := SkipSpaceBack(s, i, |s|);
    var r := Trim(s);
    assert r == s[i..j];
    if j > i {
      assert r[0] == s[i] && r[|r| - 1] == s[j - 1];
    } else {
      SpaceBetweenJoin(s, 0, i, |s|);
    }
  }

  lemma SpaceBetweenJoin(s: string, lo: int, mid: int, hi: int)
    requires 0 <= lo <= mid <= hi <= |s| && SpaceBetween(s, lo, mid) && SpaceBetween(s, mid, hi)
    ensures SpaceBetween(s, lo, hi)
  {
  }

  /** `r` is `s` less the white space before position `i` and after `r`. */
  predicate TrimmedAt(s: string, r: string, i: int) {
    0 <= i && i + |r| <= |s| && s[i..i + |r|] == r && SpaceBetween(s, 0, i) && SpaceBetween(s, i + |r|, |s|)
  }

  /** A string that neither starts nor ends with white space is its own trim. */
  lemma TrimKeepsUnpadded(r: string)
    requires r == [] || (!IsSpace(r[0]) && !IsSpace(r[|r| - 1]))
    ensures Trim(r) == r
  {
    if r != [] {
      assert SkipSpaceFrom(r, 0) == 0;
      assert SkipSpaceBack(r, 0, |r|) == |r|;
      assert r[0..|r|] == r;
    }
  }

  /** Trimming a trimmed string changes nothing. */
  lemma TrimIsIdempotent(s: string)
    ensures Trim(Trim(s)) == Trim(s)
  {
    TrimMeaning(s);
    TrimKeepsUnpadded(Trim(s));
  }

  /** `s.indexOf(c)`: the first position of `c`, or -1. */
  function IndexOf(s: string, c: char): (r: int)
    ensures -1 <= r < |s|
    ensures r == -1 <==> c !in s
    ensures r >= 0 ==> s[r] == c && c !in s[..r]
  {
    if |s| == 0 then -1
    else if s[0] == c then 0
    else
      var k := IndexOf(s[1..], c);
      assert s == [s[0]] + s[1..];
      if k == -1 then -1
      else
        assert s[..k + 1] == [s[0]] + s[1..][..k];
        k + 1
  }

  /** `s.lastIndexOf(c)`: the last position of `c`, or -1. */
  function LastIndexOf(s: string, c: char): (r: int)
    ensures -1 <= r < |s|
    ensures r == -1 <==> c !in s
    ensures r >= 0 ==> s[r] == c && c !in s[r + 1..]
  {
    if |s| == 0 then -1
    else if s[|s| - 1] == c then |s| - 1
    else
      assert s == s[..|s| - 1] + [s[|s| - 1]];
      var k := LastIndexOf(s[..|s| - 1], c);
      assert k >= 0 ==> s[k + 1..] == s[..|s| - 1][k + 1..] + [s[|s| - 1]];
      k
  }

  /** `s.startsWith(p)`. */
  predicate StartsWith(s: string, p: string) {
    |p| <= |s| && s[..|p|] == p
  }

  /** `p` occurs in `s` at position `i`. */
  predicate OccursAt(s: string, p: string, i: int) {
    0 <= i && i + |p| <= |s| && s[i..i + |p|] == p
  }

  /** `s.includes(p)`. */
  function Contains(s: string, p: string): (b: bool)
    ensures b <==> exists i :: OccursAt(s, p, i)
    decreases |s|
  {
    if |p| > |s| then
      assert forall i :: !OccursAt(s, p, i);
      false
    else if s[..|p|] == p then
      assert OccursAt(s, p, 0);
      true
    else
      var b := Contains(s[1..], p);
      OccursInTail(s, p);
      if b then
        var j :| OccursAt(s[1..], p, j);
        assert OccursAt(s, p, j + 1);
        true
      else false
  }

  lemma OccursInTail(s: string, p: string)
    requires |s| > 0
    ensures forall i :: 0 < i ==> (OccursAt(s, p, i) <==> OccursAt(s[1..], p, i - 1))
  {
    forall i | 0 < i ensures OccursAt(s, p, i) <==> OccursAt(s[1..], p, i - 1) {
      if i + |p| <= |s| {
        var u, v := s[i..i + |p|], s[1..][i - 1..i - 1 + |p|];
        assert forall k :: 0 <= k < |p| ==> u[k] == v[k];
        assert u == v;
      }
    }
  }

  /** `s` with every character satisfying `drop` removed (a global `replace` by the empty string). */
  function Remove(s: string, drop: char -> bool): (r: string)
    ensures |r| <= |s|
    ensures forall i :: 0 <= i < |r| ==> !drop(r[i])
    ensures forall c :: c in r <==> c in s && !drop(c)
  {
    if |s| == 0 then ""
    else
      var rest := Remove(s[1..], drop);
      assert forall c :: c in s <==> c == s[0] || c in s[1..];
      (if drop(s[0]) then "" else [s[0]]) + rest
  }

  /** Removing characters distributes over concatenation. */
  lemma {:induction false} RemoveAppend(a: string, b: string, drop: char -> bool)
    ensures Remove(a + b, drop) == Remove(a, drop) + Remove(b, drop)
    decreases |a|
  {
    if |a| > 0 {
      assert (a + b)[1..] == a[1..] + b;
      RemoveAppend(a[1..], b, drop);
    } else {
      assert a + b == b;
    }
  }

  /** Removing the same characters a second time changes nothing. */
  lemma {:induction false} RemoveIsIdempotent(s: string, drop: char -> bool)
    ensures Remove(Remove(s, drop), drop) == Remove(s, drop)
    decreases |s|
  {
    if |s| > 0 {
      RemoveIsIdempotent(s[1..], drop);
      var head := if drop(s[0]) then "" else [s[0]];
      RemoveAppend(head, Remove(s[1..], drop), drop);
      if !drop(s[0]) {
        assert [s[0]][1..] == "";
        assert Remove([s[0]], drop) == [s[0]] + Remove("", drop);
      }
    }
  }

  /** Removing characters that do not occur changes nothing. */
  lemma {:induction false} RemoveKeeps(s: string, drop: char -> bool)
    requires forall i :: 0 <= i < |s| ==> !drop(s[i])
    ensures Remove(s, drop) == s
    decreases |s|
  {
    if |s| > 0 {
      RemoveKeeps(s[1..], drop);
    }
  }

  /** Two removals agree on a string whose characters they judge alike. */
  lemma {:induction false} RemoveAgrees(s: string, drop: char -> bool, drop': char -> bool)
    requires forall i :: 0 <= i < |s| ==> drop(s[i]) == drop'(s[i])
    ensures Remove(s, drop) == Remove(s, drop')
    decreases |s|
  {
    if |s| > 0 {
      RemoveAgrees(s[1..], drop, drop');
    }
  }

  function LowerChar(c: char): char {
    if 'A' <= c <= 'Z' then (c as int + 32) as char else c
  }

  function UpperChar(c: char): char {
    if 'a' <= c <= 'z' then (c as int - 32) as char else c
  }

  /** `toLowerCase`, restricted to the ASCII letters. */
  function Lower(s: string): (r: string)
    ensures |r| == |s|
    ensures forall i :: 0 <= i < |r| ==> !('A' <= r[i] <= 'Z')
    ensures forall i :: 0 <= i < |s| && !('A' <= s[i] <= 'Z') ==> r[i] == s[i]
  {
    seq(|s|, i requires 0 <= i < |s| => LowerChar(s[i]))
  }

  /** A string without upper-case ASCII letters is its own lower case. */
  lemma LowerKeeps(s: string)
    requires forall i :: 0 <= i < |s| ==> !('A' <= s[i] <= 'Z')
    ensures Lower(s) == s
  {
    assert forall i :: 0 <= i < |s| ==> Lower(s)[i] == s[i];
  }

  /** `toUpperCase`, restricted to the ASCII letters. */
  function Upper(s: string): (r: string)
    ensures |r| == |s|
    ensures forall i :: 0 <= i < |r| ==> !('a' <= r[i] <= 'z')
    ensures forall i :: 0 <= i < |s| && !('a' <= s[i] <= 'z') ==> r[i] == s[i]
  {
    seq(|s|, i requires 0 <= i < |s| => UpperChar(s[i]))
  }

  function DigitChar(d: nat): char
    requires d < 10
  {
    ('0' as int + d) as char
  }

  /** The decimal digits of `n`, as a template literal renders a non-negative integer. */
  function NatToString(n: nat): (s: string)
    ensures |s| > 0
    ensures forall i :: 0 <= i < |s| ==> '0' <= s[i] <= '9'
    ensures |s| > 1 ==> s[0] != '0'
  {
    if n < 10 then [DigitChar(n)] else NatToString(n / 10) + [DigitChar(n % 10)]
  }

  /** Reads a string of decimal digits back as a number. */
  function DigitsValue(s: string): nat {
    if |s| == 0 then 0
    else
      var d := s[|s| - 1] as int - '0' as int;
      DigitsValue(s[..|s| - 1]) * 10 + (if 0 <= d < 10 then d else 0)
  }

  /** Reading the decimal rendering back gives the number. */
  lemma {:induction false} NatToStringRoundTrip(n: nat)
    ensures DigitsValue(NatToString(n)) == n
  {
    if n >= 10 {
      var s := NatToString(n);
      assert s[..|s| - 1] == NatToString(n / 10);
      NatToStringRoundTrip(n / 10);
    }
  }

  /** Different numbers render differently. */
  lemma NatToStringInjective(m: nat, n: nat)
    requires NatToString(m) == NatToString(n)
    ensures m == n
  {
    NatToStringRoundTrip(m);
    NatToStringRoundTrip(n);
  }
}
