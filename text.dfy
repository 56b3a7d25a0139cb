/**
 * The string operations of the JavaScript and Python standard libraries that the
 * frontend and the backend rely on: lower-casing, `includes`/`in`, `startsWith`,
 * `trim()`/`strip()`, `replace` with a string pattern, integer-to-decimal rendering
 * and JavaScript's default string comparison (used by `Array.prototype.sort`).
 */
module Text {

  // ---------------------------------------------------------------- case

  /** One character of `toLowerCase()` / `lower()`, restricted to the ASCII letters. */
  function LowerChar(c: char): char
  {
    if 'A' <= c <= 'Z' then (c as int + 32) as char else c
  }

  /** `s.toLowerCase()` (JavaScript) and `s.lower()` (Python) on ASCII letters. */
  function Lower(s: string): (r: string)
    ensures |r| == |s|
    ensures forall i :: 0 <= i < |s| ==> r[i] == LowerChar(s[i])
  {
    if s == [] then [] else [LowerChar(s[0])] + Lower(s[1..])
  }

  /** Lower-casing twice is lower-casing once. */
  lemma LowerIdempotent(s: string)
    ensures Lower(Lower(s)) == Lower(s)
  {
  }

  // ---------------------------------------------------------------- substrings

  /** `sub` occurs in `s` at index `i`. */
  predicate OccursAt(s: string, sub: string, i: int)
  {
    0 <= i && i + |sub| <= |s| && s[i..i + |sub|] == sub
  }

  /** `s.includes(sub)` (JavaScript) and `sub in s` (Python). */
  predicate Contains(s: string, sub: string)
  {
    exists i | 0 <= i <= |s| :: OccursAt(s, sub, i)
  }

  /** `s.startsWith(p)` (JavaScript) and `s.startswith(p)` (Python). */
  predicate StartsWith(s: string, p: string)
  {
    |p| <= |s| && s[..|p|] == p
  }

  /** Every string includes the empty string, so an empty search matches everything. */
  lemma ContainsEmpty(s: string)
    ensures Contains(s, "")
  {
    assert OccursAt(s, "", 0);
  }

  /** A slice of `s` is contained in `s`. */
  lemma SliceContained(s: string, i: int, j: int)
    requires 0 <= i <= j <= |s|
    ensures Contains(s, s[i..j])
  {
    assert OccursAt(s, s[i..j], i);
  }

  /** Containment is transitive. */
  lemma ContainsTransitive(a: string, b: string, c: string)
    requires Contains(a, b) && Contains(b, c)
    ensures Contains(a, c)
  {
    var i :| 0 <= i <= |a| && OccursAt(a, b, i);
    var j :| 0 <= j <= |b| && OccursAt(b, c, j);
    assert 0 <= i + j && i + j + |c| <= |a|;
    forall k | 0 <= k < |c|
      ensures a[i + j..i + j + |c|][k] == c[k]
    {
      assert c[k] == b[j + k] == a[i + j + k];
    }
    assert OccursAt(a, c, i + j);
  }

  /** A string that does not contain `w` has no part that contains `w`. */
  lemma NotContainedInPart(a: string, b: string, w: string)
    requires Contains(a, b) && !Contains(a, w)
    ensures !Contains(b, w)
  {
    if Contains(b, w) {
      ContainsTransitive(a, b, w);
    }
  }

  // ---------------------------------------------------------------- strip / trim

  /** `s` without its longest prefix of characters satisfying `p`. */
  function DropLeading(s: string, p: char -> bool): (r: string)
    ensures |r| <= |s| && r == s[|s| - |r|..]
    ensures r != [] ==> !p(r[0])
    ensures forall i :: 0 <= i < |s| - |r| ==> p(s[i])
  {
    if s != [] && p(s[0]) then DropLeading(s[1..], p) else s
  }

  /** `s` without its longest suffix of characters satisfying `p`. */
  function DropTrailing(s: string, p: char -> bool): (r: string)
    ensures |r| <= |s| && r == s[..|r|]
    ensures r != [] ==> !p(r[|r| - 1])
    ensures forall i :: |r| <= i < |s| ==> p(s[i])
  {
    if s != [] && p(s[|s| - 1]) then DropTrailing(s[..|s| - 1], p) else s
  }

  /** Remove the characters satisfying `p` from both ends of `s`. */
  function StripWhere(s: string, p: char -> bool): (r: string)
    ensures r != [] ==> !p(r[0]) && !p(r[|r| - 1])
  {
    DropTrailing(DropLeading(s, p), p)
  }

  /** What stripping leaves is a contiguous part of the input. */
  lemma StripIsPart(s: string, p: char -> bool)
    ensures Contains(s, StripWhere(s, p))
  {
    var t := DropLeading(s, p);
    var r := DropTrailing(t, p);
    assert r == s[|s| - |t|..|s| - |t| + |r|];
    SliceContained(s, |s| - |t|, |s| - |t| + |r|);
  }

  /** Stripping leaves nothing exactly when every character satisfies `p`. */
  lemma StripEmptyIff(s: string, p: char -> bool)
    ensures StripWhere(s, p) == [] <==> forall i :: 0 <= i < |s| ==> p(s[i])
  {
    var t := DropLeading(s, p);
    if t != [] {
      assert !p(s[|s| - |t|]);
    }
  }

  /** A prefix of stripped characters in front of a kept character is dropped exactly. */
  lemma {:induction false} DropLeadingPrefix(pre: string, s: string, p: char -> bool)
    requires forall i :: 0 <= i < |pre| ==> p(pre[i])
    requires s == [] || !p(s[0])
    ensures DropLeading(pre + s, p) == s
    decreases |pre|
  {
    if pre != [] {
      assert (pre + s)[1..] == pre[1..] + s;
      DropLeadingPrefix(pre[1..], s, p);
    }
  }

  /** A suffix of stripped characters after a kept character is dropped exactly. */
  lemma {:induction false} DropTrailingSuffix(s: string, suf: string, p: char -> bool)
    requires forall i :: 0 <= i < |suf| ==> p(suf[i])
    requires s == [] || !p(s[|s| - 1])
    ensures DropTrailing(s + suf, p) == s
    decreases |suf|
  {
    if suf != [] {
      assert (s + suf)[..|s + suf| - 1] == s + suf[..|suf| - 1];
      DropTrailingSuffix(s, suf[..|suf| - 1], p);
    }
  }

  /** Stripping a string wrapped in stripped characters gives back the string, when its own ends are kept. */
  lemma StripWrapped(pre: string, s: string, suf: string, p: char -> bool)
    requires forall i :: 0 <= i < |pre| ==> p(pre[i])
    requires forall i :: 0 <= i < |suf| ==> p(suf[i])
    requires s != [] && !p(s[0]) && !p(s[|s| - 1])
    ensures StripWhere(pre + s + suf, p) == s
  {
    assert pre + s + suf == pre + (s + suf);
    DropLeadingPrefix(pre, s + suf, p);
    DropTrailingSuffix(s, suf, p);
  }

  /** Stripping changes nothing when neither end is stripped. */
  lemma StripKeeps(s: string, p: char -> bool)
    requires s == [] || (!p(s[0]) && !p(s[|s| - 1]))
    ensures StripWhere(s, p) == s
  {
    assert [] + s == s && s + [] == s;
    DropLeadingPrefix([], s, p);
    DropTrailingSuffix(s, [], p);
  }

  /** JavaScript's white space and line terminators, as `String.prototype.trim` removes them. */
  predicate IsJsSpace(c: char)
  {
    c == '\t' || c == '\n' || c == '\U{000B}' || c == '\U{000C}' || c == '\r' || c == ' '
    || c == '\U{00A0}' || c == '\U{1680}' || ('\U{2000}' <= c <= '\U{200A}')
    || c == '\U{2028}' || c == '\U{2029}' || c == '\U{202F}' || c == '\U{205F}'
    || c == '\U{3000}' || c == '\U{FEFF}'
  }

  /** The characters for which Python's `str.isspace()` holds, as `str.strip()` removes them. */
  predicate IsPySpace(c: char)
  {
    ('\t' <= c <= '\r') || ('\U{001C}' <= c <= ' ') || c == '\U{0085}' || c == '\U{00A0}'
    || c == '\U{1680}' || ('\U{2000}' <= c <= '\U{200A}') || c == '\U{2028}' || c == '\U{2029}'
    || c == '\U{202F}' || c == '\U{205F}' || c == '\U{3000}'
  }

  /** `s.trim()` in JavaScript. */
  function JsTrim(s: string): string
  {
    StripWhere(s, IsJsSpace)
  }

  /** `s.strip()` in Python. */
  function PyStrip(s: string): string
  {
    StripWhere(s, IsPySpace)
  }

  /** `s.strip(c)` in Python, for a one-character argument. */
  function PyStripChar(s: string, c: char): string
  {
    StripWhere(s, x => x == c)
  }

  /** One character `c` on each side of `s` is stripped away when `s` neither starts nor ends with `c`. */
  lemma StripCharWrapped(s: string, c: char)
    requires s != [] && s[0] != c && s[|s| - 1] != c
    ensures PyStripChar([c] + s + [c], c) == s
  {
    StripWrapped([c], s, [c], x => x == c);
  }

  /** Stripping `c` changes nothing when neither end is `c`. */
  lemma StripCharKeeps(s: string, c: char)
    requires s == [] || (s[0] != c && s[|s| - 1] != c)
    ensures PyStripChar(s, c) == s
  {
    StripKeeps(s, x => x == c);
  }

  /** Every character is JavaScript white space. */
  predicate IsBlank(s: string)
  {
    forall i :: 0 <= i < |s| ==> IsJsSpace(s[i])
  }

  /** `!s.trim()`: a string is empty once trimmed exactly when it is blank. */
  lemma BlankIff(s: string)
    ensures JsTrim(s) == "" <==> IsBlank(s)
  {
    StripEmptyIff(s, IsJsSpace);
  }

  // ---------------------------------------------------------------- replace

  /** `s.indexOf(c)`: the first index holding `c`, or -1. */
  function IndexOf(s: string, c: char): (r: int)
    ensures r == -1 <==> c !in s
    ensures r != -1 ==> 0 <= r < |s| && s[r] == c && c !in s[..r]
  {
    if s == [] then -1
    else if s[0] == c then 0
    else
      var k := IndexOf(s[1..], c);
      if k == -1 then -1
      else
        assert s[1..][..k] == s[1..k + 1];
        k + 1
  }

  /** `s.replace(a, b)` with a one-character string pattern: only the first `a` is replaced. */
  function ReplaceFirst(s: string, a: char, b: char): (r: string)
    ensures |r| == |s|
    ensures a !in s ==> r == s
    ensures a in s ==> r[IndexOf(s, a)] == b
    ensures forall i :: 0 <= i < |s| && i != IndexOf(s, a) ==> r[i] == s[i]
  {
    var k := IndexOf(s, a);
    if k == -1 then s else s[..k] + [b] + s[k + 1..]
  }

  // ---------------------------------------------------------------- numbers

  function DigitChar(d: nat): char
    requires d < 10
  {
    ('0' as int + d) as char
  }

  predicate AllDigits(s: string)
  {
    forall i :: 0 <= i < |s| ==> '0' <= s[i] <= '9'
  }

  /** The decimal rendering of a natural number in a template literal or f-string. */
  function NatToString(n: nat): (r: string)
    ensures |r| >= 1 && AllDigits(r)
    ensures r[0] == '0' ==> n == 0
    decreases n
  {
    if n < 10 then [DigitChar(n)] else NatToString(n / 10) + [DigitChar(n % 10)]
  }

  /** The number a string of decimal digits denotes. */
  function DecimalValue(s: string): nat
    requires AllDigits(s)
  {
    if s == [] then 0 else DecimalValue(s[..|s| - 1]) * 10 + (s[|s| - 1] as int - '0' as int)
  }

  /** Reading back the rendering of `n` gives `n`. */
  lemma {:induction false} DecimalRoundTrip(n: nat)
    ensures DecimalValue(NatToString(n)) == n
  {
    if n >= 10 {
      var s := NatToString(n);
      assert s[..|s| - 1] == NatToString(n / 10);
      DecimalRoundTrip(n / 10);
    }
  }

  // ---------------------------------------------------------------- ordering

  /**
   * `a <= b` under JavaScript's default string comparison: character by character,
   * with a proper prefix ordered first.
   */
  predicate LexLe(a: string, b: string)
  {
    a == [] || (b != [] && (a[0] < b[0] || (a[0] == b[0] && LexLe(a[1..], b[1..]))))
  }

  lemma {:induction false} LexLeTotal(a: string, b: string)
    ensures LexLe(a, b) || LexLe(b, a)
  {
    if a != [] && b != [] && a[0] == b[0] {
      LexLeTotal(a[1..], b[1..]);
    }
  }

  lemma {:induction false} LexLeTransitive(a: string, b: string, c: string)
    requires LexLe(a, b) && LexLe(b, c)
    ensures LexLe(a, c)
  {
    if a != [] && b != [] && c != [] && a[0] == b[0] && b[0] == c[0] {
      LexLeTransitive(a[1..], b[1..], c[1..]);
    }
  }

  lemma {:induction false} LexLeAntisymmetric(a: string, b: string)
    requires LexLe(a, b) && LexLe(b, a)
    ensures a == b
  {
    if a != [] && b != [] {
      LexLeAntisymmetric(a[1..], b[1..]);
      assert a == [a[0]] + a[1..];
      assert b == [b[0]] + b[1..];
    }
  }
}
