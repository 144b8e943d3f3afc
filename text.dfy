/**
 * Python's no-argument `strip()` on the hostname `urlparse` returns
 * (request_engine.py:27).  The request comes from decoded JSON, so the
 * hostname is a Python 2 `unicode` and the whitespace set is Unicode's.
 */
module PyText {

  /** The characters Python 2's `unicode.isspace()` accepts. */
  predicate IsSpace(c: char)
  {
    '\t' <= c <= '\r' || '\U{1c}' <= c <= ' ' || c == '\U{85}' || c == '\U{a0}' ||
    c == '\U{1680}' || c == '\U{180e}' || '\U{2000}' <= c <= '\U{200a}' ||
    c == '\U{2028}' || c == '\U{2029}' || c == '\U{202f}' || c == '\U{205f}' || c == '\U{3000}'
  }

  /** The first index at or after `i` whose character is not whitespace (or `|s|`). */
  function SkipSpace(s: string, i: nat): (n: nat)
    requires i <= |s|
    ensures i <= n <= |s|
    ensures forall j :: i <= j < n ==> IsSpace(s[j])
    ensures n < |s| ==> !IsSpace(s[n])
    decreases |s| - i
  {
    if i < |s| && IsSpace(s[i]) then SkipSpace(s, i + 1) else i
  }

  /** The end of `s[lo..hi]` once the whitespace at its end is cut off. */
  function SkipSpaceBack(s: string, lo: nat, hi: nat): (n: nat)
    requires lo <= hi <= |s|
    ensures lo <= n <= hi
    ensures forall j :: n <= j < hi ==> IsSpace(s[j])
    ensures n > lo ==> !IsSpace(s[n - 1])
    decreases hi
  {
    if lo < hi && IsSpace(s[hi - 1]) then SkipSpaceBack(s, lo, hi - 1) else hi
  }

  /**
   * `s.strip()`: the part of `s` left once the whitespace at both ends is
   * cut off.  It is the slice of `s` that starts after the leading
   * whitespace, everything cut is whitespace, and neither end of the result is.
   */
  function Strip(s: string): (r: string)
    ensures var lo := SkipSpace(s, 0);
      lo + |r| <= |s| && r == s[lo..lo + |r|] &&
      (forall j :: 0 <= j < lo ==> IsSpace(s[j])) &&
      (forall j :: lo + |r| <= j < |s| ==> IsSpace(s[j]))
    ensures r != [] ==> !IsSpace(r[0]) && !IsSpace(r[|r| - 1])
  {
    var lo := SkipSpace(s, 0);
    var hi := SkipSpaceBack(s, lo, |s|);
    assert forall j :: hi <= j < |s| ==> IsSpace(s[j]);
    s[lo..hi]
  }

  /** A string with no whitespace at either end is its own strip. */
  lemma StripUnpadded(s: string)
    requires s == [] || (!IsSpace(s[0]) && !IsSpace(s[|s| - 1]))
    ensures Strip(s) == s
  {
    assert SkipSpace(s, 0) == 0;
  }

  /** Stripping twice is stripping once. */
  lemma StripIdempotent(s: string)
    ensures Strip(Strip(s)) == Strip(s)
  {
    StripUnpadded(Strip(s));
  }
}
