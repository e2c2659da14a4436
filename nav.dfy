/**
 * The page helpers shared by the static pages: which page the browser is on,
 * which navigation link is highlighted, and the HH:MM clock text.
 *
 * The pathname, the navigation links and the clock reading come in as
 * parameters; the links and the clock elements are arrays of records whose
 * fields the helpers update in place.
 */
module Nav {

  import opened Wrappers

  // ---------------------------------------------------------------------------
  // path.split("/").pop()
  // ---------------------------------------------------------------------------

  /** `s.split("/")`: the pieces between slashes, empty pieces included. */
  function SplitSlash(s: string): (parts: seq<string>)
    ensures |parts| >= 1
    ensures forall k :: 0 <= k < |parts| ==> '/' !in parts[k]
    decreases |s|
  {
    if s == [] then [[]]
    else
      var init := SplitSlash(s[..|s| - 1]);
      var c := s[|s| - 1];
      if c == '/' then init + [[]]
      else
        assert '/' !in init[|init| - 1] + [c];
        init[..|init| - 1] + [init[|init| - 1] + [c]]
  }

  /** `parts.join("/")`, the inverse of SplitSlash. */
  function JoinSlash(parts: seq<string>): (s: string)
    requires |parts| >= 1
  {
    if |parts| == 1 then parts[0]
    else JoinSlash(parts[..|parts| - 1]) + "/" + parts[|parts| - 1]
  }

  /** Appending a character to the last piece appends it to the joined string. */
  lemma JoinExtendLast(parts: seq<string>, c: char)
    requires |parts| >= 1
    ensures var k := |parts| - 1;
            JoinSlash(parts[..k] + [parts[k] + [c]]) == JoinSlash(parts) + [c]
  {
    var k := |parts| - 1;
    var longer := parts[..k] + [parts[k] + [c]];
    if k > 0 {
      assert longer[..k] == parts[..k];
    }
  }

  /** Starting a new, empty piece appends a slash to the joined string. */
  lemma JoinNewPiece(parts: seq<string>)
    requires |parts| >= 1
    ensures JoinSlash(parts + [[]]) == JoinSlash(parts) + "/"
  {
    assert (parts + [[]])[..|parts|] == parts;
  }

  /** Splitting at slashes loses nothing: joining the pieces gives the path back. */
  lemma {:induction false} SplitJoin(s: string)
    ensures JoinSlash(SplitSlash(s)) == s
    decreases |s|
  {
    if s != [] {
      var p := s[..|s| - 1];
      var c := s[|s| - 1];
      SplitJoin(p);
      assert s == p + [c];
      if c == '/' {
        JoinNewPiece(SplitSlash(p));
      } else {
        JoinExtendLast(SplitSlash(p), c);
      }
    }
  }

  /**
   * The last piece of the split is the part of the path after its last slash
   * (all of it when there is no slash).
   */
  lemma {:induction false} LastPieceAfterLastSlash(s: string)
    ensures var parts := SplitSlash(s);
            var seg := parts[|parts| - 1];
            |seg| <= |s| && seg == s[|s| - |seg|..] && '/' !in seg &&
            (|seg| < |s| ==> s[|s| - |seg| - 1] == '/')
    decreases |s|
  {
    if s != [] {
      var p := s[..|s| - 1];
      LastPieceAfterLastSlash(p);
      var init := SplitSlash(p);
      if s[|s| - 1] != '/' {
        var parts := SplitSlash(s);
        assert parts[|parts| - 1] == init[|init| - 1] + [s[|s| - 1]];
        assert s == p + [s[|s| - 1]];
      }
    }
  }

  /** What `split("/").pop()` returns: the part of the path after its last slash. */
  function LastPiece(s: string): (seg: string)
    ensures |seg| <= |s| && seg == s[|s| - |seg|..] && '/' !in seg
    ensures |seg| < |s| ==> s[|s| - |seg| - 1] == '/'
  {
    var parts := SplitSlash(s);
    LastPieceAfterLastSlash(s);
    parts[|parts| - 1]
  }

  /**
   * `getCurrentPage`: the last path segment, or "index.html" when that
   * segment is empty, which happens exactly when the pathname is empty or
   * ends in a slash.  The result is never empty and never holds a slash.
   */
  function CurrentPage(path: string): (page: string)
    ensures page != [] && '/' !in page
    ensures (path == [] || path[|path| - 1] == '/') ==> page == "index.html"
    ensures !(path == [] || path[|path| - 1] == '/') ==>
              |page| <= |path| && page == path[|path| - |page|..] &&
              (|page| < |path| ==> path[|path| - |page| - 1] == '/')
  {
    var page := LastPiece(path);
    assert page == [] && path != [] ==> path[|path| - 1] == '/';
    assert page != [] ==> page[|page| - 1] == path[|path| - 1];
    if page != [] then page else "index.html"
  }

  // ---------------------------------------------------------------------------
  // setActiveNavLink
  // ---------------------------------------------------------------------------

  /** A `.nav-link` element: its `href` attribute (null when absent) and whether it has the `active` class. */
  datatype NavLink = NavLink(href: Option<string>, active: bool)

  /**
   * Whether the loop of `setActiveNavLink` marks a link with this href active
   * for this current page: the root-path case (a current page of "" or "/"
   * and an href of "index.html"), or an href equal to the current page.
   */
  predicate MarksActive(href: Option<string>, currentPage: string)
  {
    ((currentPage == "" || currentPage == "/") && href == Some("index.html")) ||
    href == Some(currentPage)
  }

  /**
   * The `forEach` over the `.nav-link` elements: each link gets or loses the
   * `active` class by MarksActive; hrefs and the order of the links stay.
   */
  method MarkActiveLinks(links: array<NavLink>, currentPage: string)
    modifies links
    ensures forall j :: 0 <= j < links.Length ==>
              links[j] == old(links[j]).(active := MarksActive(old(links[j]).href, currentPage))
  {
    for i := 0 to links.Length
      invariant forall j :: 0 <= j < i ==>
                  links[j] == old(links[j]).(active := MarksActive(old(links[j]).href, currentPage))
      invariant forall j :: i <= j < links.Length ==> links[j] == old(links[j])
    {
      var href := links[i].href;
      if (currentPage == "" || currentPage == "/") && href == Some("index.html") {
        links[i] := links[i].(active := true);
      } else if href == Some(currentPage) {
        links[i] := links[i].(active := true);
      } else {
        links[i] := links[i].(active := false);
      }
    }
  }

  /**
   * `setActiveNavLink`: afterwards a link is active exactly when its href
   * equals the current page; hrefs and the order of the links do not change.
   * The root-path case of the loop never applies, because CurrentPage never
   * returns "" or "/".
   */
  method SetActiveNavLink(links: array<NavLink>, path: string)
    modifies links
    ensures forall j :: 0 <= j < links.Length ==>
              links[j] == old(links[j]).(active := old(links[j]).href == Some(CurrentPage(path)))
  {
    var currentPage := CurrentPage(path);
    assert currentPage != "" && currentPage != "/";
    MarkActiveLinks(links, currentPage);
  }

  // ---------------------------------------------------------------------------
  // The HH:MM clock text of updateLastUpdate
  // ---------------------------------------------------------------------------

  predicate IsDigit(c: char)
  {
    '0' <= c <= '9'
  }

  ghost predicate AllDigits(s: string)
  {
    forall i :: 0 <= i < |s| ==> IsDigit(s[i])
  }

  function DigitChar(d: nat): (c: char)
    requires d < 10
    ensures IsDigit(c)
  {
    (d + '0' as int) as char
  }

  /** The number a string of decimal digits denotes (what `parseInt` reads back). */
  function Value(s: string): (n: nat)
    requires AllDigits(s)
  {
    if s == [] then 0
    else Value(s[..|s| - 1]) * 10 + (s[|s| - 1] as int - '0' as int)
  }

  /** `String(n)` for a natural number: its decimal digits, with no leading zero. */
  function Decimal(n: nat): (s: string)
    ensures 1 <= |s| && AllDigits(s)
    ensures |s| == 1 <==> n < 10
    ensures s[0] == '0' ==> n == 0
    ensures Value(s) == n
  {
    if n < 10 then [DigitChar(n)]
    else
      var s := Decimal(n / 10) + [DigitChar(n % 10)];
      assert s[..|s| - 1] == Decimal(n / 10);
      s
  }

  /** `s.padStart(width, fill)`: fill on the left up to `width`; a longer string is kept whole. */
  function PadStart(s: string, width: nat, fill: char): (r: string)
    ensures |r| == if |s| < width then width else |s|
    ensures r[|r| - |s|..] == s
    ensures forall i :: 0 <= i < |r| - |s| ==> r[i] == fill
  {
    if |s| >= width then s else seq(width - |s|, _ => fill) + s
  }

  /** `String(n)` has two digits exactly from ten to ninety-nine. */
  lemma DecimalTwoDigits(n: nat)
    ensures |Decimal(n)| == 2 <==> 10 <= n < 100
  {
    if n >= 10 {
      assert |Decimal(n)| == |Decimal(n / 10)| + 1;
    }
  }

  /**
   * `String(n).padStart(2, "0")`: at least two digits that read back as n,
   * exactly two when n is below one hundred.
   */
  function TwoDigits(n: nat): (s: string)
    ensures |s| >= 2 && AllDigits(s) && Value(s) == n
    ensures |s| == 2 <==> n < 100
    ensures n >= 10 ==> s == Decimal(n)
  {
    var d := Decimal(n);
    DecimalTwoDigits(n);
    var s := PadStart(d, 2, '0');
    if n < 10 then
      assert s == ['0'] + d;
      assert s[..1] == ['0'];
      assert Value(['0'][..0]) == 0;
      s
    else
      s
  }

  /** `t` is `HH:MM`: two digits, a colon, two digits, the fields reading back as the hours and minutes. */
  ghost predicate ClockText(t: string, hours: nat, minutes: nat)
  {
    |t| == 5 && t[2] == ':' &&
    AllDigits(t[..2]) && AllDigits(t[3..]) &&
    Value(t[..2]) == hours && Value(t[3..]) == minutes
  }

  /**
   * The clock text `${hours}:${minutes}`, each field zero-padded to two
   * digits.  For a clock reading (hours 0..23, minutes 0..59, or indeed any
   * two numbers below one hundred) it is five characters `HH:MM` whose two
   * fields read back as the hours and the minutes.
   */
  function TimeString(hours: nat, minutes: nat): (t: string)
    ensures hours < 100 && minutes < 100 ==> ClockText(t, hours, minutes)
  {
    var h, m := TwoDigits(hours), TwoDigits(minutes);
    if hours < 100 && minutes < 100 then
      FieldsAroundColon(h, m);
      h + ":" + m
    else
      h + ":" + m
  }

  /** Two two-character fields around a colon sit at positions 0..1 and 3..4. */
  lemma FieldsAroundColon(h: string, m: string)
    requires |h| == 2 && |m| == 2
    ensures var t := h + ":" + m;
            |t| == 5 && t[2] == ':' && t[..2] == h && t[3..] == m
  {
    var t := h + ":" + m;
    assert t[..2] == h;
    assert t[3..] == m;
  }

  /** The `forEach` that writes one text into every element of the collection. */
  method SetAllTexts(texts: array<string>, text: string)
    modifies texts
    ensures forall j :: 0 <= j < texts.Length ==> texts[j] == text
  {
    for i := 0 to texts.Length
      invariant forall j :: 0 <= j < i ==> texts[j] == text
    {
      texts[i] := text;
    }
  }

  /**
   * `updateLastUpdate`: every element of the `#lastUpdate` collection (given
   * by its text content) receives the same clock text.
   */
  method UpdateLastUpdate(texts: array<string>, hours: nat, minutes: nat)
    modifies texts
    ensures forall j :: 0 <= j < texts.Length ==> texts[j] == TimeString(hours, minutes)
  {
    var timeString := TimeString(hours, minutes);
    SetAllTexts(texts, timeString);
  }
}
