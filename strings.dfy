/**
 * The three JavaScript string operations the chat script relies on:
 * `String.prototype.trim`, `String.prototype.toLowerCase` (restricted to
 * ASCII letters) and `String.prototype.includes`.
 */
module Strings {

  /** The code points that `trim` removes: the WhiteSpace and
      LineTerminator productions of the ECMAScript language specification
      (TAB, VT, FF, SP, NBSP, ZWNBSP, every other space separator, LF, CR,
      LS and PS). */
  predicate IsWhitespace(c: char) {
    || c == '\t' || c == '\n' || c == '\U{000B}' || c == '\U{000C}' || c == '\r'
    || c == ' ' || c == '\U{00A0}' || c == '\U{1680}'
    || ('\U{2000}' <= c <= '\U{200A}')
    || c == '\U{2028}' || c == '\U{2029}' || c == '\U{202F}' || c == '\U{205F}'
    || c == '\U{3000}' || c == '\U{FEFF}'
  }

  /** Every character of `s` from index `lo` up to `hi` is whitespace. */
  ghost predicate WhitespaceBetween(s: string, lo: int, hi: int) {
    forall k :: lo <= k < hi && 0 <= k < |s| ==> IsWhitespace(s[k])
  }

  /** `r` is `s` with only whitespace cut off both ends, the kept part
      starting at index `i`, and `r` neither starts nor ends with whitespace. */
  ghost predicate TrimmedAt(s: string, r: string, i: int) {
    && 0 <= i && i + |r| <= |s|
    && s[i..i + |r|] == r
    && WhitespaceBetween(s, 0, i)
    && WhitespaceBetween(s, i + |r|, |s|)
    && (r != [] ==> !IsWhitespace(s[i]) && !IsWhitespace(s[i + |r| - 1]))
  }

  /** The index of the first non-whitespace character at or after `i`
      (or `|s|`). */
  function SkipLeading(s: string, i: nat): (n: nat)
    requires i <= |s|
    ensures i <= n <= |s| && WhitespaceBetween(s, i, n)
    ensures n < |s| ==> !IsWhitespace(s[n])
    decreases |s| - i
  {
    if i < |s| && IsWhitespace(s[i]) then SkipLeading(s, i + 1) else i
  }

  /** The index just past the last non-whitespace character of `s[lo..j]`
      (or `lo`). */
  function SkipTrailing(s: string, lo: nat, j: nat): (m: nat)
    requires lo <= j <= |s|
    ensures lo <= m <= j && WhitespaceBetween(s, m, j)
    ensures lo < m ==> !IsWhitespace(s[m - 1])
  {
    if lo < j && IsWhitespace(s[j - 1]) then SkipTrailing(s, lo, j - 1) else j
  }

  /** `String.prototype.trim`. */
  function Trim(s: string): (r: string)
    ensures exists i :: TrimmedAt(s, r, i)
    ensures r == [] <==> WhitespaceBetween(s, 0, |s|)
  {
    var i := SkipLeading(s, 0);
    var j := SkipTrailing(s, i, |s|);
    assert TrimmedAt(s, s[i..j], i);
    s[i..j]
  }

  /** Any two trimmings of a string agree: `Trim` is the only result
      `TrimmedAt` allows. */
  lemma TrimmedAtUnique(s: string, r: string, i: int)
    requires TrimmedAt(s, r, i)
    ensures r == Trim(s)
  {
  }

  /** The result of `trim` has no whitespace left to remove. */
  lemma TrimIdempotent(s: string)
    ensures Trim(Trim(s)) == Trim(s)
  {
  }

  /** A string with no whitespace at either end is its own trimming. */
  lemma TrimOfTrimmed(s: string)
    requires s == [] || (!IsWhitespace(s[0]) && !IsWhitespace(s[|s| - 1]))
    ensures Trim(s) == s
  {
  }

  /** Trimming removes exactly the whitespace padding around a string that
      has none at its own ends. */
  lemma TrimPadded(before: string, s: string, after: string)
    requires WhitespaceBetween(before, 0, |before|) && WhitespaceBetween(after, 0, |after|)
    requires s == [] || (!IsWhitespace(s[0]) && !IsWhitespace(s[|s| - 1]))
    ensures Trim(before + s + after) == s
  {
    var padded := before + s + after;
    assert padded[|before|..|before| + |s|] == s;
    assert forall k :: 0 <= k < |before| ==> padded[k] == before[k];
    assert forall k :: |before| + |s| <= k < |padded| ==> padded[k] == after[k - |before| - |s|];
    assert TrimmedAt(padded, s, |before|);
    TrimmedAtUnique(padded, s, |before|);
  }

  /** `toLowerCase` on one character, for the ASCII letters. */
  function LowerChar(c: char): (l: char) {
    if 'A' <= c <= 'Z' then (c as int + 32) as char else c
  }

  /** Uppercasing of one ASCII letter; the script never uppercases, this
      only serves to state that its filter ignores case. */
  function UpperChar(c: char): (u: char) {
    if 'a' <= c <= 'z' then (c as int - 32) as char else c
  }

  /** `String.prototype.toLowerCase`, restricted to ASCII. */
  function Lower(s: string): (r: string)
    ensures |r| == |s|
  {
    seq(|s|, k requires 0 <= k < |s| => LowerChar(s[k]))
  }

  /** The lowercase form has no ASCII capitals left, and every other
      character is kept where it was. */
  lemma LowerHasNoCapitals(s: string)
    ensures forall c :: c in Lower(s) ==> !('A' <= c <= 'Z')
    ensures forall k :: 0 <= k < |s| && !('A' <= s[k] <= 'Z') ==> Lower(s)[k] == s[k]
  {
  }

  /** ASCII uppercasing of a whole string. */
  function Upper(s: string): (r: string)
    ensures |r| == |s|
  {
    seq(|s|, k requires 0 <= k < |s| => UpperChar(s[k]))
  }

  /** Lowercasing twice changes nothing more. */
  lemma LowerIdempotent(s: string)
    ensures Lower(Lower(s)) == Lower(s)
  {
  }

  /** Text without ASCII capitals is its own lowercase form. */
  lemma LowerOfLowercase(s: string)
    requires forall c :: c in s ==> !('A' <= c <= 'Z')
    ensures Lower(s) == s
  {
    assert forall k :: 0 <= k < |s| ==> s[k] in s;
  }

  /** Uppercasing first does not change what lowercasing yields. */
  lemma LowerOfUpper(s: string)
    ensures Lower(Upper(s)) == Lower(s)
  {
  }

  /** Lowercasing commutes with taking a slice. */
  lemma LowerSlice(s: string, i: int, j: int)
    requires 0 <= i <= j <= |s|
    ensures Lower(s[i..j]) == Lower(s)[i..j]
  {
  }

  /** `needle` occurs in `hay` starting at index `i`. */
  ghost predicate OccursAt(needle: string, hay: string, i: int) {
    0 <= i && i + |needle| <= |hay| && hay[i..i + |needle|] == needle
  }

  ghost predicate IsSubstring(needle: string, hay: string) {
    exists i :: OccursAt(needle, hay, i)
  }

  /** Past a failed first position, the occurrences in `hay` are those in
      its tail, shifted by one. */
  lemma SubstringOfTail(needle: string, hay: string)
    requires hay != [] && !(needle <= hay)
    ensures IsSubstring(needle, hay) <==> IsSubstring(needle, hay[1..])
  {
    if IsSubstring(needle, hay) {
      var i :| OccursAt(needle, hay, i);
      assert hay[1..][i - 1..i - 1 + |needle|] == hay[i..i + |needle|];
      assert OccursAt(needle, hay[1..], i - 1);
    }
    if IsSubstring(needle, hay[1..]) {
      var i :| OccursAt(needle, hay[1..], i);
      assert hay[1..][i..i + |needle|] == hay[i + 1..i + 1 + |needle|];
      assert OccursAt(needle, hay, i + 1);
    }
  }

  /** `hay.includes(needle)`: a scan of the start positions from left to right. */
  function Contains(hay: string, needle: string): (b: bool)
    ensures b <==> IsSubstring(needle, hay)
    decreases |hay|
  {
    if needle <= hay then
      assert OccursAt(needle, hay, 0);
      true
    else if hay == [] then
      false
    else
      SubstringOfTail(needle, hay);
      Contains(hay[1..], needle)
  }

  /** Substring is transitive: an occurrence inside an occurrence is an
      occurrence. */
  lemma SubstringTransitive(a: string, b: string, c: string)
    requires IsSubstring(a, b) && IsSubstring(b, c)
    ensures IsSubstring(a, c)
  {
    var i :| OccursAt(a, b, i);
    var j :| OccursAt(b, c, j);
    var w := c[j + i..j + i + |a|];
    forall k | 0 <= k < |a| ensures w[k] == a[k] {
      assert w[k] == c[j..j + |b|][i + k] == b[i..i + |a|][k];
    }
    assert OccursAt(a, c, j + i);
  }

  /** Lowercasing preserves occurrences. */
  lemma LowerPreservesSubstring(a: string, b: string)
    requires IsSubstring(a, b)
    ensures IsSubstring(Lower(a), Lower(b))
  {
    var i :| OccursAt(a, b, i);
    LowerSlice(b, i, i + |a|);
    assert OccursAt(Lower(a), Lower(b), i);
  }

  /** What `Trim` keeps is a substring of its input. */
  lemma TrimIsSubstring(s: string)
    ensures IsSubstring(Trim(s), s)
  {
    var i :| TrimmedAt(s, Trim(s), i);
    assert OccursAt(Trim(s), s, i);
  }

  /** Every character of an occurrence is a character of the string. */
  lemma SubstringChars(needle: string, hay: string, c: char)
    requires IsSubstring(needle, hay) && c in needle
    ensures c in hay
  {
  }
}
