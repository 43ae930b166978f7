/** String operations of the two host languages that the core relies on:
    Python's `str.strip`, slicing, `startswith`, `replace(' ', '')` and `lower`,
    and JavaScript's `String.prototype.trim` and `includes`. */
module Text {
  import opened Base

  /** The characters Python's `str.isspace` (and so `str.strip()`) treats as whitespace. */
  predicate IsPySpace(c: char) {
    ('\U{0009}' <= c <= '\U{000D}') || ('\U{001C}' <= c <= '\U{001F}') || c == ' ' || c == '\U{0085}'
    || c == '\U{00A0}' || c == '\U{1680}' || ('\U{2000}' <= c <= '\U{200A}') || c == '\U{2028}'
    || c == '\U{2029}' || c == '\U{202F}' || c == '\U{205F}' || c == '\U{3000}'
  }

  /** The characters JavaScript's `trim` removes: WhiteSpace and LineTerminator. */
  predicate IsJsSpace(c: char) {
    c == '\U{0009}' || c == '\U{000A}' || c == '\U{000B}' || c == '\U{000C}' || c == '\U{000D}'
    || c == ' ' || c == '\U{00A0}' || c == '\U{1680}' || ('\U{2000}' <= c <= '\U{200A}')
    || c == '\U{2028}' || c == '\U{2029}' || c == '\U{202F}' || c == '\U{205F}' || c == '\U{3000}'
    || c == '\U{FEFF}'
  }

  /** Number of leading characters satisfying `sp`. */
  function LeadCount(s: string, sp: char -> bool): (n: nat)
    ensures n <= |s|
    ensures forall k :: 0 <= k < n ==> sp(s[k])
    ensures n < |s| ==> !sp(s[n])
  {
    if |s| > 0 && sp(s[0]) then 1 + LeadCount(s[1..], sp) else 0
  }

  /** Number of trailing characters satisfying `sp`. */
  function TrailCount(s: string, sp: char -> bool): (n: nat)
    ensures n <= |s|
    ensures forall k :: |s| - n <= k < |s| ==> sp(s[k])
    ensures n < |s| ==> !sp(s[|s| - 1 - n])
  {
    if |s| > 0 && sp(s[|s| - 1]) then 1 + TrailCount(s[..|s| - 1], sp) else 0
  }

  /** Remove the leading and then the trailing run of `sp` characters. */
  function Strip(s: string, sp: char -> bool): (r: string)
  {
    var t := s[LeadCount(s, sp)..];
    t[..|t| - TrailCount(t, sp)]
  }

  /** Python's `s.strip()`. */
  function PyStrip(s: string): string {
    Strip(s, IsPySpace)
  }

  /** JavaScript's `s.trim()`. */
  function JsTrim(s: string): string {
    Strip(s, IsJsSpace)
  }

  /** What is stripped is a contiguous piece of the input, with only `sp`
      characters cut off on each side, and it neither starts nor ends with one. */
  lemma StripShape(s: string, sp: char -> bool)
    ensures var r := Strip(s, sp);
      exists a: nat, b: nat :: a <= b <= |s| && r == s[a..b]
        && (forall k :: 0 <= k < a ==> sp(s[k]))
        && (forall k :: b <= k < |s| ==> sp(s[k]))
    ensures var r := Strip(s, sp); r == [] || (!sp(r[0]) && !sp(r[|r| - 1]))
  {
    var a := LeadCount(s, sp);
    var t := s[a..];
    var n := TrailCount(t, sp);
    var b := a + |t| - n;
    assert Strip(s, sp) == s[a..b];
    forall k | b <= k < |s| ensures sp(s[k]) {
      assert s[k] == t[k - a];
    }
    var r := Strip(s, sp);
    if r != [] {
      assert r[0] == t[0];
      assert r[|r| - 1] == t[|t| - 1 - n];
    }
  }

  /** A string that neither starts nor ends with an `sp` character is left unchanged. */
  lemma StripUnchanged(s: string, sp: char -> bool)
    requires s == [] || (!sp(s[0]) && !sp(s[|s| - 1]))
    ensures Strip(s, sp) == s
  {
    assert LeadCount(s, sp) == 0;
    assert s[0..] == s;
  }

  /** Stripping twice is stripping once. */
  lemma StripIdempotent(s: string, sp: char -> bool)
    ensures Strip(Strip(s, sp), sp) == Strip(s, sp)
  {
    StripShape(s, sp);
    StripUnchanged(Strip(s, sp), sp);
  }

  /** The result is empty exactly when the input is all `sp` characters. */
  lemma StripEmptyIff(s: string, sp: char -> bool)
    ensures Strip(s, sp) == [] <==> forall k :: 0 <= k < |s| ==> sp(s[k])
  {
    var a := LeadCount(s, sp);
    if a < |s| {
      var t := s[a..];
      assert t[0] == s[a];
      assert TrailCount(t, sp) < |t|;
    }
  }

  predicate StartsWith(s: string, prefix: string) {
    |prefix| <= |s| && s[..|prefix|] == prefix
  }

  /** A Python slice bound `i` for a string of length `n`: a negative bound
      counts from the end, and the result is clamped to `0..n`. */
  function PyIndex(i: int, n: nat): (r: nat)
    ensures r <= n
    ensures 0 <= i <= n ==> r == i
    ensures i < 0 && n + i >= 0 ==> r == n + i
  {
    if i < 0 then (if n + i < 0 then 0 else n + i) else (if i > n then n else i)
  }

  /** Python's `s[start:stop]`: empty when the clamped start is not before the clamped stop. */
  function PySlice(s: string, start: int, stop: int): (r: string)
    ensures PyIndex(start, |s|) < PyIndex(stop, |s|) ==> r == s[PyIndex(start, |s|)..PyIndex(stop, |s|)]
    ensures PyIndex(start, |s|) >= PyIndex(stop, |s|) ==> r == ""
  {
    var i, j := PyIndex(start, |s|), PyIndex(stop, |s|);
    if i < j then s[i..j] else ""
  }

  /** The fence slices `t[a:-b]`: with room for both cuts the slice drops the
      first `a` and the last `b` characters, and with no room it is empty. */
  lemma PySliceDropsEnds(s: string, a: nat, b: nat)
    requires b > 0
    ensures a + b <= |s| ==> PySlice(s, a, -(b as int)) == s[a..|s| - b] && |PySlice(s, a, -(b as int))| == |s| - a - b
    ensures a + b >= |s| ==> PySlice(s, a, -(b as int)) == ""
    ensures a + b <= |s| ==> s == s[..a] + PySlice(s, a, -(b as int)) + s[|s| - b..]
  {
    if a + b <= |s| {
      assert s == s[..a] + s[a..|s| - b] + s[|s| - b..];
    }
  }

  /** JavaScript's `s.includes(sub)`. */
  function Includes(s: string, sub: string): (b: bool)
    ensures b <==> Contains(s, sub)
  {
    if |sub| > |s| then
      assert forall k: nat :: !OccursAt(s, sub, k);
      false
    else if s[..|sub|] == sub then
      assert OccursAt(s, sub, 0);
      true
    else
      var rest := Includes(s[1..], sub);
      IncludesStep(s, sub);
      rest
  }

  lemma IncludesStep(s: string, sub: string)
    requires |sub| <= |s| && s[..|sub|] != sub
    ensures Contains(s, sub) <==> Contains(s[1..], sub)
  {
    var t := s[1..];
    if Contains(s, sub) {
      var k: nat :| OccursAt(s, sub, k);
      assert k != 0;
      assert t[k - 1..k - 1 + |sub|] == s[k..k + |sub|];
      assert OccursAt(t, sub, k - 1);
    }
    if Contains(t, sub) {
      var k: nat :| OccursAt(t, sub, k);
      assert s[k + 1..k + 1 + |sub|] == t[k..k + |sub|];
      assert OccursAt(s, sub, k + 1);
    }
  }

  /** Python's `c.lower()` on the ASCII capitals; every other character is kept. */
  function LowerChar(c: char): (d: char)
    ensures !('A' <= d <= 'Z')
  {
    if 'A' <= c <= 'Z' then (c as int + 32) as char else c
  }

  function Lower(s: string): (r: string)
    ensures |r| == |s|
    ensures forall k :: 0 <= k < |s| ==> r[k] == LowerChar(s[k])
  {
    seq(|s|, k requires 0 <= k < |s| => LowerChar(s[k]))
  }

  /** Lowering leaves no ASCII capital, keeps every other character, is
      idempotent, and works piecewise over a concatenation. */
  lemma LowerFacts(s: string, t: string)
    ensures forall k :: 0 <= k < |Lower(s)| ==> !('A' <= Lower(s)[k] <= 'Z')
    ensures (forall k :: 0 <= k < |s| ==> !('A' <= s[k] <= 'Z')) ==> Lower(s) == s
    ensures Lower(Lower(s)) == Lower(s)
    ensures Lower(s + t) == Lower(s) + Lower(t)
  {
    var l := Lower(s);
    assert forall k :: 0 <= k < |l| ==> LowerChar(l[k]) == l[k];
    assert Lower(l) == l;
    var st := s + t;
    assert forall k :: 0 <= k < |st| ==> Lower(st)[k] == (Lower(s) + Lower(t))[k];
  }

  /** Python's `s.replace(' ', '')`. */
  function RemoveSpaces(s: string): (r: string)
    ensures |r| <= |s|
    ensures forall k :: 0 <= k < |r| ==> r[k] != ' '
  {
    if s == [] then "" else RemoveSpaces(s[..|s| - 1]) + (if s[|s| - 1] == ' ' then "" else [s[|s| - 1]])
  }

  /** Removing the spaces keeps every other character, in order. */
  lemma {:induction false} RemoveSpacesKeepsOthers(s: string)
    requires forall k :: 0 <= k < |s| ==> s[k] != ' '
    ensures RemoveSpaces(s) == s
  {
    if s != [] {
      RemoveSpacesKeepsOthers(s[..|s| - 1]);
    }
  }

  lemma {:induction false} RemoveSpacesAppend(a: string, b: string)
    ensures RemoveSpaces(a + b) == RemoveSpaces(a) + RemoveSpaces(b)
  {
    if b != [] {
      assert (a + b)[..|a + b| - 1] == a + b[..|b| - 1];
      RemoveSpacesAppend(a, b[..|b| - 1]);
    } else {
      assert a + b == a;
    }
  }
}
