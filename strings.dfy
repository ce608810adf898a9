/**
 * The two Python string operations the browser relies on: `str.startswith`
 * and `str.strip()` with no argument.
 */
module Strings {

  /** `s.startswith(prefix)`. */
  predicate StartsWith(s: string, prefix: string)
  {
    |prefix| <= |s| && s[..|prefix|] == prefix
  }

  lemma StartsWithAppend(prefix: string, s: string, rest: string)
    requires StartsWith(s, prefix)
    ensures StartsWith(s + rest, prefix)
  {
    assert (s + rest)[..|prefix|] == s[..|prefix|];
  }

  lemma StartsWithTransitive(s: string, p: string, q: string)
    requires StartsWith(s, p) && StartsWith(p, q)
    ensures StartsWith(s, q)
  {
    assert s[..|q|] == s[..|p|][..|q|];
  }

  /**
   * Python's `str.isspace` characters: the characters `str.strip()` removes
   * when given no argument.
   */
  const SpaceChars: set<char> := {
    '\t', '\n', '\U{0B}', '\U{0C}', '\r',                  // tab, line feed, vertical tab, form feed, carriage return
    '\U{1C}', '\U{1D}', '\U{1E}', '\U{1F}',                 // the four information separators
    ' ', '\U{85}', '\U{A0}', '\U{1680}',
    '\U{2000}', '\U{2001}', '\U{2002}', '\U{2003}', '\U{2004}', '\U{2005}',
    '\U{2006}', '\U{2007}', '\U{2008}', '\U{2009}', '\U{200A}',
    '\U{2028}', '\U{2029}', '\U{202F}', '\U{205F}', '\U{3000}'
  }

  /** `c.isspace()` for one character. */
  predicate IsSpace(c: char)
  {
    c in SpaceChars
  }

  /** Every character of `s` in positions `from` up to `to` is white space. */
  predicate SpaceBetween(s: string, from: int, to: int)
    requires 0 <= from <= to <= |s|
  {
    forall k | from <= k < to :: IsSpace(s[k])
  }

  /** Neither the first nor the last character is white space. */
  predicate NoOuterSpace(s: string)
  {
    s == [] || (!IsSpace(s[0]) && !IsSpace(s[|s| - 1]))
  }

  /** The number of white-space characters at the start of `s`. */
  function LeadingSpace(s: string): (n: nat)
    ensures n <= |s| && SpaceBetween(s, 0, n)
    ensures n < |s| ==> !IsSpace(s[n])
  {
    if |s| > 0 && IsSpace(s[0]) then
      var m := LeadingSpace(s[1..]);
      assert forall k | 1 <= k < m + 1 :: s[k] == s[1..][k - 1];
      m + 1
    else
      0
  }

  /** The number of white-space characters at the end of `s`. */
  function TrailingSpace(s: string): (n: nat)
    ensures n <= |s| && SpaceBetween(s, |s| - n, |s|)
    ensures n < |s| ==> !IsSpace(s[|s| - n - 1])
  {
    if |s| > 0 && IsSpace(s[|s| - 1]) then
      var m := TrailingSpace(s[..|s| - 1]);
      assert forall k | |s| - 1 - m <= k < |s| - 1 :: s[k] == s[..|s| - 1][k];
      m + 1
    else
      0
  }

  /**
   * The meaning of `str.strip()`: `r` is a slice of `s`, everything cut off on
   * either side is white space, and `r` itself neither starts nor ends with it.
   */
  ghost predicate IsStripOf(r: string, s: string)
  {
    exists i, j | 0 <= i <= j <= |s| ::
      r == s[i..j] && SpaceBetween(s, 0, i) && SpaceBetween(s, j, |s|) && NoOuterSpace(r)
  }

  /** Cut points `i` and `j` that meet the conditions of `IsStripOf` witness it. */
  lemma StripOfAt(r: string, s: string, i: int, j: int)
    requires 0 <= i <= j <= |s| && r == s[i..j]
    requires SpaceBetween(s, 0, i) && SpaceBetween(s, j, |s|) && NoOuterSpace(r)
    ensures IsStripOf(r, s)
  {
  }

  /** `s.strip()`. */
  function Strip(s: string): (r: string)
    ensures IsStripOf(r, s)
  {
    var i := LeadingSpace(s);
    var n := TrailingSpace(s[i..]);
    var r := s[i..|s| - n];
    assert forall k | |s| - n <= k < |s| :: s[k] == s[i..][k - i];
    assert SpaceBetween(s, |s| - n, |s|);
    assert r != [] ==> r[0] == s[i] && r[|r| - 1] == s[i..][|s| - i - n - 1];
    StripOfAt(r, s, i, |s| - n);
    r
  }

  /** Any cut point with white space before it and none at it is where `LeadingSpace` stops. */
  lemma LeadingSpaceAt(s: string, i: nat)
    requires i < |s| && SpaceBetween(s, 0, i) && !IsSpace(s[i])
    ensures LeadingSpace(s) == i
  {
  }

  /** Any cut point with white space after it and none just before it is where `TrailingSpace` starts. */
  lemma TrailingSpaceAt(s: string, j: nat)
    requires 0 < j <= |s| && SpaceBetween(s, j, |s|) && !IsSpace(s[j - 1])
    ensures TrailingSpace(s) == |s| - j
  {
  }

  /** A string of white space only strips to the empty string. */
  lemma StripAllSpace(s: string)
    requires SpaceBetween(s, 0, |s|)
    ensures Strip(s) == []
  {
    assert LeadingSpace(s) == |s|;
  }

  /** Cut points with white space outside them and none just inside them are where `Strip` cuts. */
  lemma StripAt(s: string, i: nat, j: nat)
    requires i < j <= |s| && SpaceBetween(s, 0, i) && SpaceBetween(s, j, |s|)
    requires !IsSpace(s[i]) && !IsSpace(s[j - 1])
    ensures Strip(s) == s[i..j]
  {
    LeadingSpaceAt(s, i);
    var t := s[i..];
    assert forall k | j - i <= k < |t| :: t[k] == s[k + i];
    TrailingSpaceAt(t, j - i);
  }

  /** `IsStripOf` pins its first argument down: `Strip` is the only function meeting it. */
  lemma StripUnique(r: string, s: string)
    requires IsStripOf(r, s)
    ensures r == Strip(s)
  {
    var i, j :| 0 <= i <= j <= |s| && r == s[i..j] && SpaceBetween(s, 0, i) && SpaceBetween(s, j, |s|) && NoOuterSpace(r);
    if i == j {
      StripAllSpace(s);
    } else {
      assert s[i] == r[0] && s[j - 1] == r[|r| - 1];
      StripAt(s, i, j);
    }
  }

  /** A string with no white space at either end is its own strip. */
  lemma StripNoOuterSpace(s: string)
    requires NoOuterSpace(s)
    ensures Strip(s) == s
  {
    assert s[0..|s|] == s;
    assert IsStripOf(s, s);
    StripUnique(s, s);
  }

  /** Stripping twice is stripping once. */
  lemma StripIdempotent(s: string)
    ensures Strip(Strip(s)) == Strip(s)
  {
    var r := Strip(s);
    var i, j :| 0 <= i <= j <= |s| && r == s[i..j] && SpaceBetween(s, 0, i) && SpaceBetween(s, j, |s|) && NoOuterSpace(r);
    StripNoOuterSpace(r);
  }
}
