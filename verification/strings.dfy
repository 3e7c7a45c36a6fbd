/**
 * The three String.prototype operations the log builder calls:
 * `split(",")[0]`, `trim()` and `toLowerCase()`.
 */
module JsStrings {

  /**
   * The code points `String.prototype.trim` removes: ECMAScript's
   * WhiteSpace (TAB, VT, FF, SP, NBSP, ZWNBSP and the Zs category) and
   * LineTerminator (LF, CR, LS, PS). All of them lie in the Basic
   * Multilingual Plane, so one code point is one UTF-16 code unit.
   */
  predicate IsWhiteSpace(c: char)
  {
    var n := c as int;
    || 0x09 <= n <= 0x0D
    || n == 0x20 || n == 0xA0 || n == 0x1680
    || 0x2000 <= n <= 0x200A
    || n == 0x2028 || n == 0x2029 || n == 0x202F || n == 0x205F
    || n == 0x3000 || n == 0xFEFF
  }

  /** Every character of s[lo..hi] is white space. */
  predicate WhiteBetween(s: string, lo: int, hi: int)
    requires 0 <= lo <= hi <= |s|
  {
    forall i :: lo <= i < hi ==> IsWhiteSpace(s[i])
  }

  /** The end of the run of white space that starts at index i: where trimming the start stops. */
  function LeadingEnd(s: string, i: nat): (k: nat)
    requires i <= |s|
    ensures i <= k <= |s| && WhiteBetween(s, i, k)
    ensures k < |s| ==> !IsWhiteSpace(s[k])
    decreases |s| - i
  {
    if i < |s| && IsWhiteSpace(s[i]) then LeadingEnd(s, i + 1) else i
  }

  /** The start of the run of white space that ends at index j, going no lower than lo. */
  function TrailingStart(s: string, lo: nat, j: nat): (k: nat)
    requires lo <= j <= |s|
    ensures lo <= k <= j && WhiteBetween(s, k, j)
    ensures k > lo ==> !IsWhiteSpace(s[k - 1])
  {
    if j > lo && IsWhiteSpace(s[j - 1]) then TrailingStart(s, lo, j - 1) else j
  }

  /** `r` is s[lo..hi] and only white space lies outside it. */
  predicate IsInnerSlice(s: string, r: string, lo: int, hi: int)
  {
    0 <= lo <= hi <= |s| && r == s[lo..hi] && WhiteBetween(s, 0, lo) && WhiteBetween(s, hi, |s|)
  }

  /**
   * `s.trim()`: the slice left when the maximal white-space runs at both
   * ends are removed.
   */
  function Trim(s: string): (r: string)
    ensures exists lo, hi :: IsInnerSlice(s, r, lo, hi)
    ensures |r| > 0 ==> !IsWhiteSpace(r[0]) && !IsWhiteSpace(r[|r| - 1])
  {
    var lo := LeadingEnd(s, 0);
    var hi := TrailingStart(s, lo, |s|);
    assert IsInnerSlice(s, s[lo..hi], lo, hi);
    s[lo..hi]
  }

  /**
   * The contract of Trim determines its result: any inner slice that does
   * not begin or end with white space is the trimmed string.
   */
  lemma TrimIsTheInnerSlice(s: string, lo: int, hi: int)
    requires 0 <= lo <= hi <= |s| && IsInnerSlice(s, s[lo..hi], lo, hi)
    requires lo < hi ==> !IsWhiteSpace(s[lo]) && !IsWhiteSpace(s[hi - 1])
    ensures Trim(s) == s[lo..hi]
  {
    var a := LeadingEnd(s, 0);
    var b := TrailingStart(s, a, |s|);
    assert Trim(s) == s[a..b];
    if lo < hi {
      assert a == lo;
      assert b == hi;
    } else {
      assert a == |s|;
    }
  }

  /** Trimming a trimmed string changes nothing. */
  lemma TrimIdempotent(s: string)
    ensures Trim(Trim(s)) == Trim(s)
  {
    var r := Trim(s);
    assert r[0..|r|] == r;
    TrimIsTheInnerSlice(r, 0, |r|);
  }

  /**
   * `s.split(",")[0]`: the text before the first comma, or all of `s`
   * when it has none (split always yields at least one piece).
   */
  function FirstSegment(s: string): (r: string)
    ensures |r| <= |s| && r == s[..|r|]
    ensures ',' !in r
    ensures |r| < |s| ==> s[|r|] == ','
  {
    if |s| == 0 || s[0] == ',' then "" else [s[0]] + FirstSegment(s[1..])
  }

  /**
   * The contract of FirstSegment determines its result: a comma-free prefix
   * that ends at a comma or at the end of `s` is the first segment.
   */
  lemma FirstSegmentIs(s: string, k: int)
    requires 0 <= k <= |s| && ',' !in s[..k]
    requires k < |s| ==> s[k] == ','
    ensures FirstSegment(s) == s[..k]
  {
    var r := FirstSegment(s);
    assert forall j :: 0 <= j < k ==> s[..k][j] == s[j];
    assert forall j :: 0 <= j < |r| ==> r[j] == s[j];
  }

  /** The first hop of a comma-separated list, trimmed, holds no comma. */
  lemma TrimmedSegmentHasNoComma(s: string)
    ensures ',' !in Trim(FirstSegment(s))
  {
    var seg := FirstSegment(s);
    var ip := Trim(seg);
    var lo, hi :| IsInnerSlice(seg, ip, lo, hi);
    SliceLacks(seg, lo, hi, ',');
  }

  /** A character absent from a string is absent from each of its slices. */
  lemma SliceLacks(t: string, lo: int, hi: int, c: char)
    requires 0 <= lo <= hi <= |t| && c !in t
    ensures c !in t[lo..hi]
  {
    assert forall i :: 0 <= i < hi - lo ==> t[lo..hi][i] == t[lo + i];
  }

  /** `toLowerCase` on one character, for the ASCII letters. */
  function LowerChar(c: char): (d: char)
    ensures 'A' <= c <= 'Z' ==> d as int == c as int + 32
    ensures !('A' <= c <= 'Z') ==> d == c
  {
    if 'A' <= c <= 'Z' then (c as int + 32) as char else c
  }

  /** `s.toLowerCase()`, for ASCII letters: it maps each character on its own. */
  function Lower(s: string): (r: string)
    ensures |r| == |s|
    ensures forall i :: 0 <= i < |s| ==> r[i] == LowerChar(s[i])
  {
    seq(|s|, i requires 0 <= i < |s| => LowerChar(s[i]))
  }

  /** A string without upper-case ASCII letters is its own lower-case form. */
  lemma LowerOfLowerCase(s: string)
    requires forall i :: 0 <= i < |s| ==> !('A' <= s[i] <= 'Z')
    ensures Lower(s) == s
  {
  }

  /** Lower-casing is idempotent: a lower-case name is its own lower-case form. */
  lemma LowerIdempotent(s: string)
    ensures Lower(Lower(s)) == Lower(s)
  {
    var r := Lower(s);
    assert forall i :: 0 <= i < |r| ==> LowerChar(r[i]) == r[i];
  }
}
