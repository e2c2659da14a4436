/**
 * JavaScript's `String.prototype.trim`, as the search box uses it: strip the
 * ECMAScript white space and line terminators from both ends.
 */
module JsText {

  /**
   * The characters `trim` removes: ECMAScript WhiteSpace (tab, vertical tab,
   * form feed, space, no-break space, byte order mark and every space
   * separator) and LineTerminator (line feed, carriage return, line and
   * paragraph separators).
   */
  const JsSpaces: string :=
    "\t\n\U{B}\U{C}\r \U{A0}\U{1680}" +
    "\U{2000}\U{2001}\U{2002}\U{2003}\U{2004}\U{2005}\U{2006}\U{2007}\U{2008}\U{2009}\U{200A}" +
    "\U{2028}\U{2029}\U{202F}\U{205F}\U{3000}\U{FEFF}"

  predicate IsJsSpace(c: char)
  {
    c in JsSpaces
  }

  /** A string made only of white space (the empty string included). */
  ghost predicate AllSpace(s: string)
  {
    forall i :: 0 <= i < |s| ==> IsJsSpace(s[i])
  }

  /** The index of the first non-space character at or after `from`, or |s| if there is none. */
  function SkipSpaces(s: string, from: nat): (k: nat)
    requires from <= |s|
    ensures from <= k <= |s|
    ensures forall i :: from <= i < k ==> IsJsSpace(s[i])
    ensures k < |s| ==> !IsJsSpace(s[k])
    decreases |s| - from
  {
    if from == |s| || !IsJsSpace(s[from]) then from else SkipSpaces(s, from + 1)
  }

  /**
   * Scanning back from `end`: one past the last non-space character at or
   * after `lo`, or `lo` if there is none.
   */
  function SkipSpacesBack(s: string, lo: nat, end: nat): (k: nat)
    requires lo <= end <= |s|
    ensures lo <= k <= end
    ensures forall i :: k <= i < end ==> IsJsSpace(s[i])
    ensures k > lo ==> !IsJsSpace(s[k - 1])
    decreases end
  {
    if end == lo || !IsJsSpace(s[end - 1]) then end else SkipSpacesBack(s, lo, end - 1)
  }

  /**
   * `s.trim()`: a contiguous piece of `s` whose two ends are not white space,
   * with only white space cut off on either side; it is empty exactly when
   * `s` is blank.
   */
  function Trim(s: string): (r: string)
    ensures r == [] <==> AllSpace(s)
    ensures r != [] ==> !IsJsSpace(r[0]) && !IsJsSpace(r[|r| - 1])
    ensures var lo := SkipSpaces(s, 0);
            lo + |r| <= |s| && r == s[lo..lo + |r|] &&
            (forall i :: 0 <= i < lo ==> IsJsSpace(s[i])) &&
            (forall i :: lo + |r| <= i < |s| ==> IsJsSpace(s[i]))
  {
    var lo := SkipSpaces(s, 0);
    var hi := SkipSpacesBack(s, lo, |s|);
    TrimBlank(s, lo, hi);
    var r := s[lo..hi];
    assert |r| == hi - lo;
    assert r != [] ==> r[0] == s[lo] && r[|r| - 1] == s[hi - 1];
    r
  }

  /** Nothing is left between the two scans exactly when the string is blank. */
  lemma TrimBlank(s: string, lo: nat, hi: nat)
    requires lo == SkipSpaces(s, 0) && hi == SkipSpacesBack(s, lo, |s|)
    ensures hi == lo <==> AllSpace(s)
  {
    if hi == lo {
      forall i | 0 <= i < |s| ensures IsJsSpace(s[i]) {
      }
    }
  }
}
