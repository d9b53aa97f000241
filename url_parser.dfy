/**
 * YApiUrlParser: reads (server origin, project id, interface id) out of the
 * address of an interface page, such as
 * https://yapi.example.com/project/100/interface/api/12345.
 *
 * The URL arrives already split by the URL parser of the host platform into
 * its `protocol` (with the trailing colon, as in "https:"), its `host` (with
 * the port, if any) and its `pathname`; `None` stands for a string that is
 * not a valid URL.
 *
 * The path is searched for the unanchored pattern
 * `/project/(\d+)/interface/api/(\d+)`: the leftmost occurrence wins, each
 * digit run is as long as possible, and anything may follow the second run.
 */
module UrlParser {
  import opened Wrappers

  datatype UrlParts = UrlParts(protocol: string, host: string, pathname: string)

  datatype InterfaceUrl = InterfaceUrl(baseUrl: string, projectId: string, interfaceId: string)

  const ProjectSegment := "/project/"
  const InterfaceSegment := "/interface/api/"

  /** `\d` in a JavaScript regular expression: the ASCII digits only. */
  predicate IsDigit(c: char) {
    '0' <= c <= '9'
  }

  predicate IsDigits(s: string) {
    s != [] && forall k :: 0 <= k < |s| ==> IsDigit(s[k])
  }

  /** The path text that one match of the pattern covers. */
  function Pattern(projectId: string, interfaceId: string): string {
    ProjectSegment + projectId + InterfaceSegment + interfaceId
  }

  /** `s` occurs in `p` at position `i`. */
  predicate OccursAt(p: string, i: nat, s: string) {
    i + |s| <= |p| && p[i..i + |s|] == s
  }

  /** The end of the run of digits that starts at `i` (greedy `\d*`). */
  function DigitRunEnd(p: string, i: nat): (j: nat)
    requires i <= |p|
    ensures i <= j <= |p|
    ensures forall k :: i <= k < j ==> IsDigit(p[k])
    ensures j < |p| ==> !IsDigit(p[j])
    decreases |p| - i
  {
    if i < |p| && IsDigit(p[i]) then DigitRunEnd(p, i + 1) else i
  }

  /**
   * The two captured groups when the pattern matches starting exactly at `i`.
   * A match captures two digit strings framed by the literal segments, and the
   * second one is a maximal run: the matched text ends at the end of the path
   * or before a non-digit. (`MatchComplete` is the converse.)
   */
  function MatchAt(p: string, i: nat): (r: Option<(string, string)>)
    requires i <= |p|
    ensures r.Some? ==> IsDigits(r.value.0) && IsDigits(r.value.1)
    ensures r.Some? ==> OccursAt(p, i, Pattern(r.value.0, r.value.1))
    ensures r.Some? ==> var m := i + |Pattern(r.value.0, r.value.1)|; m == |p| || !IsDigit(p[m])
  {
    if !OccursAt(p, i, ProjectSegment) then None
    else
      var j := DigitRunEnd(p, i + |ProjectSegment|);
      if j == i + |ProjectSegment| || !OccursAt(p, j, InterfaceSegment) then None
      else
        var k := DigitRunEnd(p, j + |InterfaceSegment|);
        if k == j + |InterfaceSegment| then None
        else
          var s, t := i + |ProjectSegment|, j + |InterfaceSegment|;
          var a, b := p[s..j], p[t..k];
          DigitSlice(p, s, j);
          DigitSlice(p, t, k);
          SliceSplit(p, i, s, k);
          SliceSplit(p, s, j, k);
          SliceSplit(p, j, t, k);
          assert p[i..k] == Pattern(a, b) by {
            assert p[i..s] == ProjectSegment && p[j..t] == InterfaceSegment;
            assert p[i..k] == ProjectSegment + (a + (InterfaceSegment + b));
          }
          Some((a, b))
  }

  /** A slice of `p` is the slice up to `y` followed by the slice from `y`. */
  lemma SliceSplit(p: string, x: nat, y: nat, z: nat)
    requires x <= y <= z <= |p|
    ensures p[x..z] == p[x..y] + p[y..z]
  {
  }

  /** A non-empty stretch of digits, cut out of `p`, is a digit string. */
  lemma DigitSlice(p: string, s: nat, e: nat)
    requires s < e <= |p|
    requires forall k :: s <= k < e ==> IsDigit(p[k])
    ensures IsDigits(p[s..e])
  {
    forall m | 0 <= m < e - s
      ensures IsDigit(p[s..e][m])
    {
      assert p[s..e][m] == p[s + m];
    }
  }

  /** The leftmost position at or after `from` where the pattern matches. */
  function FirstMatch(p: string, from: nat): (r: Option<nat>)
    requires from <= |p|
    ensures r.Some? ==> from <= r.value <= |p| && MatchAt(p, r.value).Some?
    ensures r.Some? ==> forall i :: from <= i < r.value ==> MatchAt(p, i).None?
    ensures r.None? ==> forall i :: from <= i <= |p| ==> MatchAt(p, i).None?
    decreases |p| - from
  {
    if MatchAt(p, from).Some? then Some(from)
    else if from == |p| then None
    else FirstMatch(p, from + 1)
  }

  /** `parseInterfaceUrl`: `None` for an invalid URL or a path without the pattern. */
  function ParseInterfaceUrl(url: Option<UrlParts>): (r: Option<InterfaceUrl>)
    ensures url.None? ==> r.None?
    ensures r.Some? ==> r.value.baseUrl == url.value.protocol + "//" + url.value.host
  {
    match url
    case None => None
    case Some(parts) =>
      match FirstMatch(parts.pathname, 0)
      case None => None
      case Some(i) =>
        var groups := MatchAt(parts.pathname, i).value;
        Some(InterfaceUrl(parts.protocol + "//" + parts.host, groups.0, groups.1))
  }

  /** A maximal digit run is the one `DigitRunEnd` finds. */
  lemma DigitRunEndAt(p: string, i: nat, j: nat)
    requires i <= j <= |p|
    requires forall k :: i <= k < j ==> IsDigit(p[k])
    requires j < |p| ==> !IsDigit(p[j])
    ensures DigitRunEnd(p, i) == j
  {
  }

  /** A greedy digit run reaches at least as far as any run of digits from the same start. */
  lemma DigitRunCovers(p: string, i: nat, j: nat)
    requires i <= j <= |p|
    requires forall k :: i <= k < j ==> IsDigit(p[k])
    ensures DigitRunEnd(p, i) >= j
  {
  }

  /** An occurrence of `x + y` is an occurrence of `x` followed by one of `y`. */
  lemma OccursAtSplit(p: string, i: nat, x: string, y: string)
    requires OccursAt(p, i, x + y)
    ensures OccursAt(p, i, x) && OccursAt(p, i + |x|, y)
  {
    assert p[i..i + |x|] == (x + y)[..|x|];
    assert p[i + |x|..i + |x| + |y|] == (x + y)[|x|..];
  }

  /**
   * Every occurrence of the pattern is matched at its position: the project id
   * is captured exactly, and the interface id is captured with any digits that
   * follow it.
   */
  lemma MatchComplete(p: string, i: nat, a: string, b: string)
    requires IsDigits(a) && IsDigits(b)
    requires OccursAt(p, i, Pattern(a, b))
    ensures MatchAt(p, i).Some?
    ensures MatchAt(p, i).value.0 == a
    ensures b <= MatchAt(p, i).value.1
  {
    var x := ProjectSegment + a + InterfaceSegment;
    var t := i + |x|;
    ProjectRunAt(p, i, a, b);
    OccursAtSplit(p, i, x, b);
    DigitsAt(p, t, b);
    var e := DigitRunEnd(p, t);
    assert MatchAt(p, i) == Some((a, p[t..e]));
    assert p[t..e][..|b|] == p[t..t + |b|];
  }

  /** In an occurrence of the pattern, the project id is the whole first digit run and the interface segment follows it. */
  lemma ProjectRunAt(p: string, i: nat, a: string, b: string)
    requires IsDigits(a)
    requires OccursAt(p, i, Pattern(a, b))
    ensures OccursAt(p, i, ProjectSegment)
    ensures DigitRunEnd(p, i + |ProjectSegment|) == i + |ProjectSegment| + |a|
    ensures p[i + |ProjectSegment|..i + |ProjectSegment| + |a|] == a
    ensures OccursAt(p, i + |ProjectSegment| + |a|, InterfaceSegment)
  {
    var s := i + |ProjectSegment|;
    var j := s + |a|;
    assert Pattern(a, b) == (ProjectSegment + a + InterfaceSegment) + b;
    OccursAtSplit(p, i, ProjectSegment + a + InterfaceSegment, b);
    OccursAtSplit(p, i, ProjectSegment + a, InterfaceSegment);
    OccursAtSplit(p, i, ProjectSegment, a);
    assert p[s..j] == a;
    forall k | s <= k < j ensures IsDigit(p[k]) {
      assert p[k] == a[k - s];
    }
    assert p[j] == InterfaceSegment[0];
    DigitRunEndAt(p, s, j);
  }

  /** A digit string occurring at `t` lies inside the digit run that starts there. */
  lemma DigitsAt(p: string, t: nat, b: string)
    requires IsDigits(b) && OccursAt(p, t, b)
    ensures DigitRunEnd(p, t) >= t + |b|
  {
    forall k | t <= k < t + |b| ensures IsDigit(p[k]) {
      assert p[k] == p[t..t + |b|][k - t];
    }
    DigitRunCovers(p, t, t + |b|);
  }

  /**
   * `Pattern(a, b)` is the leftmost match in `p` and starts at `i`: it occurs
   * there, it ends at the end of the path or before a non-digit (so `b` is the
   * whole digit run), and no match starts further left.
   */
  predicate LeftmostMatchAt(p: string, i: nat, a: string, b: string) {
    && i <= |p|
    && OccursAt(p, i, Pattern(a, b))
    && (i + |Pattern(a, b)| == |p| || !IsDigit(p[i + |Pattern(a, b)|]))
    && forall j :: 0 <= j < i ==> MatchAt(p, j).None?
  }

  /**
   * `parseInterfaceUrl` fails on a valid URL exactly when the pattern occurs
   * nowhere in the path; when it succeeds, both ids are digit strings and the
   * pattern built from them is the leftmost match, with the interface id the
   * whole digit run.
   */
  lemma ParseMeaning(parts: UrlParts)
    ensures ParseInterfaceUrl(Some(parts)).None? <==>
      forall i :: 0 <= i <= |parts.pathname| ==> MatchAt(parts.pathname, i).None?
    ensures ParseInterfaceUrl(Some(parts)).Some? ==>
      var r := ParseInterfaceUrl(Some(parts)).value;
      IsDigits(r.projectId) && IsDigits(r.interfaceId) &&
      exists i :: LeftmostMatchAt(parts.pathname, i, r.projectId, r.interfaceId)
  {
    ParseNoneIffNoMatch(parts);
    match FirstMatch(parts.pathname, 0)
    case None =>
    case Some(i) =>
      ParseFound(parts, i);
  }

  /** A valid URL is rejected exactly when the pattern matches at no position of the path. */
  lemma ParseNoneIffNoMatch(parts: UrlParts)
    ensures ParseInterfaceUrl(Some(parts)).None? <==>
      forall i :: 0 <= i <= |parts.pathname| ==> MatchAt(parts.pathname, i).None?
  {
    match FirstMatch(parts.pathname, 0)
    case None =>
    case Some(i) =>
      assert MatchAt(parts.pathname, i).Some?;
  }

  /** The parse result at the leftmost match position `i`. */
  lemma ParseFound(parts: UrlParts, i: nat)
    requires FirstMatch(parts.pathname, 0) == Some(i)
    ensures ParseInterfaceUrl(Some(parts)).Some?
    ensures var r := ParseInterfaceUrl(Some(parts)).value;
      IsDigits(r.projectId) && IsDigits(r.interfaceId) &&
      LeftmostMatchAt(parts.pathname, i, r.projectId, r.interfaceId)
  {
    ParseAt(parts, i);
  }

  /** A path that holds the pattern with numeric ids is always recognised. */
  lemma ParseFindsOccurrence(parts: UrlParts, i: nat, a: string, b: string)
    requires IsDigits(a) && IsDigits(b)
    requires OccursAt(parts.pathname, i, Pattern(a, b))
    ensures ParseInterfaceUrl(Some(parts)).Some?
  {
    MatchComplete(parts.pathname, i, a, b);
    ParseMeaning(parts);
  }

  /** Without the `/interface/api/` segment anywhere in the path there is no match. */
  lemma ParseNeedsInterfaceSegment(parts: UrlParts)
    requires forall j :: 0 <= j <= |parts.pathname| ==> !OccursAt(parts.pathname, j, InterfaceSegment)
    ensures ParseInterfaceUrl(Some(parts)).None?
  {
  }

  /** The parse result in terms of the leftmost match position. */
  lemma ParseAt(parts: UrlParts, i: nat)
    requires FirstMatch(parts.pathname, 0) == Some(i)
    ensures ParseInterfaceUrl(Some(parts)) == Some(InterfaceUrl(parts.protocol + "//" + parts.host,
      MatchAt(parts.pathname, i).value.0, MatchAt(parts.pathname, i).value.1))
  {
  }

  /**
   * Round trip: a path that starts with the pattern built from two ids, and
   * continues with anything but a digit, gives back exactly those two ids.
   */
  lemma ParsePatternPrefix(parts: UrlParts, a: string, b: string, rest: string)
    requires IsDigits(a) && IsDigits(b)
    requires parts.pathname == Pattern(a, b) + rest
    requires rest == [] || !IsDigit(rest[0])
    ensures ParseInterfaceUrl(Some(parts)) == Some(InterfaceUrl(parts.protocol + "//" + parts.host, a, b))
  {
    var p := parts.pathname;
    OccursAtSplit(p, 0, Pattern(a, b), rest);
    MatchPrefix(p, a, b);
    assert FirstMatch(p, 0) == Some(0);
    ParseAt(parts, 0);
  }

  /** The pattern at the start of `p`, ending where the digits end, matches with exactly its two ids. */
  lemma MatchPrefix(p: string, a: string, b: string)
    requires IsDigits(a) && IsDigits(b)
    requires OccursAt(p, 0, Pattern(a, b))
    requires |Pattern(a, b)| < |p| ==> !IsDigit(p[|Pattern(a, b)|])
    ensures MatchAt(p, 0) == Some((a, b))
  {
    MatchComplete(p, 0, a, b);
    var v := MatchAt(p, 0).value.1;
    OccursAtSplit(p, 0, ProjectSegment + a + InterfaceSegment, v);
    assert v == v[..|b|] == b;
  }

  /** The documented example, on any scheme and host. */
  lemma ParseDocumentedExample(parts: UrlParts)
    requires parts.pathname == "/project/100/interface/api/12345"
    ensures ParseInterfaceUrl(Some(parts))
      == Some(InterfaceUrl(parts.protocol + "//" + parts.host, "100", "12345"))
  {
    assert parts.pathname == Pattern("100", "12345") + [];
    ParsePatternPrefix(parts, "100", "12345", []);
  }

  /** The pattern is not anchored at its end: letters after the id are ignored. */
  lemma ParseIgnoresTrailingText(parts: UrlParts)
    requires parts.pathname == "/project/1/interface/api/12abc"
    ensures ParseInterfaceUrl(Some(parts))
      == Some(InterfaceUrl(parts.protocol + "//" + parts.host, "1", "12"))
  {
    assert parts.pathname == Pattern("1", "12") + "abc";
    ParsePatternPrefix(parts, "1", "12", "abc");
  }
}
