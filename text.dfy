/**
 * The few pieces of Kotlin's string library that the tracker's rules are
 * written with: `Char.isWhitespace`, `isBlank`, `trim` and
 * `contains(…, ignoreCase = true)`.
 */
module Text {

  /** Java's `Character.isSpaceChar`: Unicode's space, line and paragraph separators. */
  predicate IsSpaceChar(c: char) {
    || c == ' ' || c == '\U{00A0}' || c == '\U{1680}'
    || ('\U{2000}' <= c <= '\U{200A}')
    || c == '\U{2028}' || c == '\U{2029}' || c == '\U{202F}' || c == '\U{205F}'
    || c == '\U{3000}'
  }

  /**
   * Java's `Character.isWhitespace`: the separators except the no-break
   * spaces, plus the control characters TAB..CR and FS..US.
   */
  predicate JavaIsWhitespace(c: char) {
    || (IsSpaceChar(c) && c != '\U{00A0}' && c != '\U{2007}' && c != '\U{202F}')
    || ('\t' <= c <= '\r')
    || ('\U{001C}' <= c <= '\U{001F}')
  }

  /** Kotlin's `Char.isWhitespace` on the JVM, written out as one set of ranges. */
  function IsWhitespace(c: char): (b: bool)
    ensures b <==> JavaIsWhitespace(c) || IsSpaceChar(c)
  {
    || ('\t' <= c <= '\r')
    || ('\U{001C}' <= c <= '\U{001F}')
    || c == ' ' || c == '\U{00A0}' || c == '\U{1680}'
    || ('\U{2000}' <= c <= '\U{200A}')
    || c == '\U{2028}' || c == '\U{2029}' || c == '\U{202F}' || c == '\U{205F}'
    || c == '\U{3000}'
  }

  /** `isBlank`: empty, or whitespace only; exactly the texts `trim()` empties. */
  function IsBlank(s: string): (b: bool)
    ensures b <==> Trim(s) == []
  {
    var i := SkipLeadingBlanks(s, 0);
    var j := SkipTrailingBlanks(s, i, |s|);
    assert BlankBetween(s, 0, i) && BlankBetween(s, j, |s|);
    assert i < |s| ==> !IsWhitespace(s[i]);
    forall k :: 0 <= k < |s| ==> IsWhitespace(s[k])
  }

  /** Every character of `s` at an index in `lo..hi` is whitespace. */
  ghost predicate BlankBetween(s: string, lo: int, hi: int) {
    forall k :: lo <= k < hi && 0 <= k < |s| ==> IsWhitespace(s[k])
  }

  /** The forward scan of `trim()`: the first index from `i` on that is not whitespace. */
  function SkipLeadingBlanks(s: string, i: nat): (n: nat)
    requires i <= |s|
    ensures i <= n <= |s| && BlankBetween(s, i, n)
    ensures n < |s| ==> !IsWhitespace(s[n])
    decreases |s| - i
  {
    if i < |s| && IsWhitespace(s[i]) then SkipLeadingBlanks(s, i + 1) else i
  }

  /** The backward scan of `trim()`: lowers the end `j` past whitespace, not below `lo`. */
  function SkipTrailingBlanks(s: string, lo: nat, j: nat): (m: nat)
    requires lo <= j <= |s|
    ensures lo <= m <= j && BlankBetween(s, m, j)
    ensures m > lo ==> !IsWhitespace(s[m - 1])
    decreases j
  {
    if j > lo && IsWhitespace(s[j - 1]) then SkipTrailingBlanks(s, lo, j - 1) else j
  }

  /** `trim()`: neither starts nor ends with whitespace; see TrimIsMiddleSlice. */
  function Trim(s: string): (r: string)
    ensures |r| <= |s|
    ensures r == [] || (!IsWhitespace(r[0]) && !IsWhitespace(r[|r| - 1]))
  {
    var i := SkipLeadingBlanks(s, 0);
    var j := SkipTrailingBlanks(s, i, |s|);
    s[i..j]
  }

  /** `r` is the slice of `s` at `i`, with only whitespace before and after it. */
  ghost predicate MiddleSlice(s: string, r: string, i: int) {
    && 0 <= i <= |s| - |r| && r == s[i..i + |r|]
    && BlankBetween(s, 0, i) && BlankBetween(s, i + |r|, |s|)
  }

  /** What `trim()` keeps is the middle slice between a blank prefix and a blank suffix. */
  lemma TrimIsMiddleSlice(s: string)
    ensures exists i :: MiddleSlice(s, Trim(s), i)
  {
    var i := SkipLeadingBlanks(s, 0);
    assert MiddleSlice(s, Trim(s), i);
  }

  /** Trimming twice changes nothing more. */
  lemma TrimIdempotent(s: string)
    ensures Trim(Trim(s)) == Trim(s)
  {
    var r := Trim(s);
    assert SkipLeadingBlanks(r, 0) == 0;
    assert SkipTrailingBlanks(r, 0, |r|) == |r|;
    assert r[0..|r|] == r;
  }

  /** Case folding as `ignoreCase` applies it, restricted to the ASCII letters. */
  function LowerAscii(c: char): char {
    if 'A' <= c <= 'Z' then (c as int + 32) as char else c
  }

  predicate SameIgnoringCase(a: char, b: char) {
    LowerAscii(a) == LowerAscii(b)
  }

  /** `q` occurs in `text` at offset `i`, ignoring case. */
  ghost predicate OccursAt(text: string, q: string, i: int) {
    && 0 <= i && i + |q| <= |text|
    && forall k :: 0 <= k < |q| ==> SameIgnoringCase(text[i + k], q[k])
  }

  /** `q` occurs somewhere in `text`, ignoring case. */
  ghost predicate Occurs(text: string, q: string) {
    exists i :: OccursAt(text, q, i)
  }

  function StartsWithIgnoringCase(text: string, q: string): (b: bool)
    ensures b <==> OccursAt(text, q, 0)
  {
    if q == [] then true
    else if text == [] then false
    else SameIgnoringCase(text[0], q[0]) && StartsWithIgnoringCase(text[1..], q[1..])
  }

  /** Away from offset 0, an occurrence in `text` is one in its tail. */
  lemma OccursInTail(text: string, q: string)
    requires text != [] && !OccursAt(text, q, 0)
    ensures Occurs(text, q) <==> Occurs(text[1..], q)
  {
    if Occurs(text[1..], q) {
      var i :| OccursAt(text[1..], q, i);
      assert OccursAt(text, q, i + 1);
    }
    if Occurs(text, q) {
      var i :| OccursAt(text, q, i);
      assert OccursAt(text[1..], q, i - 1);
    }
  }

  /** `text.contains(q, ignoreCase = true)`. */
  function ContainsIgnoringCase(text: string, q: string): (b: bool)
    ensures b <==> Occurs(text, q)
  {
    if StartsWithIgnoringCase(text, q) then true
    else if text == [] then false
    else
      OccursInTail(text, q);
      ContainsIgnoringCase(text[1..], q)
  }
}
