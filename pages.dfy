/**
 * Which page a URL path shows: the last path segment, without one trailing
 * slash and without a query, matched against the page names ignoring case,
 * with the first page as the fallback.
 */
module Pages {
  import opened Common

  /** The page names, in declaration order. */
  const PageNames: seq<string> := ["AI", "Logs", "Backtest", "Settings", "Support", "BinaryTerminal", "DerivAPIResearch"]

  /** `toLowerCase` on the ASCII letters. */
  function LowerChar(c: char): char
  {
    if 'A' <= c <= 'Z' then (c as int + 32) as char else c
  }

  function Lower(s: string): string
  {
    if s == "" then "" else [LowerChar(s[0])] + Lower(s[1..])
  }

  /** Lower-casing keeps the length and lowers each character. */
  lemma {:induction false} LowerSpec(s: string)
    ensures |Lower(s)| == |s|
    ensures forall i :: 0 <= i < |s| ==> Lower(s)[i] == LowerChar(s[i])
  {
    if s != "" {
      LowerSpec(s[1..]);
    }
  }

  /** `url.slice(0, -1)` when the URL ends with a slash. */
  function DropTrailingSlash(url: string): (r: string)
    ensures url == r || url == r + "/"
    ensures r == url <==> url == "" || url[|url| - 1] != '/'
  {
    if url != "" && url[|url| - 1] == '/' then url[..|url| - 1] else url
  }

  /** `s.split('/').pop()`: what follows the last slash, or all of `s`. */
  function LastSegment(s: string): (r: string)
    ensures |r| <= |s| && r == s[|s| - |r|..]
    ensures '/' !in r
    ensures |r| < |s| ==> s[|s| - |r| - 1] == '/'
  {
    if s == "" then ""
    else if s[|s| - 1] == '/' then ""
    else LastSegment(s[..|s| - 1]) + [s[|s| - 1]]
  }

  /** `s.split('?')[0]`: what precedes the first question mark, or all of
      `s`. */
  function BeforeQuery(s: string): (r: string)
    ensures |r| <= |s| && r == s[..|r|]
    ensures '?' !in r
    ensures |r| < |s| ==> s[|r|] == '?'
  {
    if s == "" then ""
    else if s[0] == '?' then ""
    else [s[0]] + BeforeQuery(s[1..])
  }

  /** The first name whose lower case equals that of `segment`. */
  function FindPage(names: seq<string>, segment: string): (r: Option<string>)
    ensures r.Some? ==> r.value in names
  {
    if names == [] then None
    else if Lower(names[0]) == Lower(segment) then Some(names[0])
    else FindPage(names[1..], segment)
  }

  /** The segment a URL is matched on. */
  function PageSegment(url: string): string
  {
    BeforeQuery(LastSegment(DropTrailingSlash(url)))
  }

  /** `_getCurrentPage`: the matching page, or the first one. */
  function CurrentPage(url: string): (page: string)
    ensures page in PageNames
    ensures FindPage(PageNames, PageSegment(url)).None? ==> page == "AI"
  {
    var found := FindPage(PageNames, PageSegment(url));
    if found.Some? then found.value else PageNames[0]
  }

  /** The search finds a name exactly when one matches ignoring case, and
      the name it finds is such a match. */
  lemma {:induction false} FindPageSpec(names: seq<string>, segment: string)
    ensures FindPage(names, segment).Some? ==> Lower(FindPage(names, segment).value) == Lower(segment)
    ensures FindPage(names, segment).None? <==> forall n :: n in names ==> Lower(n) != Lower(segment)
  {
    if names != [] {
      FindPageSpec(names[1..], segment);
      assert forall n :: n in names <==> n == names[0] || n in names[1..];
    }
  }

  /** The page shown is the first page when nothing matches, and otherwise
      a page whose name matches the segment ignoring case. */
  lemma CurrentPageMatches(url: string)
    ensures CurrentPage(url) != "AI" ==> Lower(CurrentPage(url)) == Lower(PageSegment(url))
    ensures (forall n :: n in PageNames ==> Lower(n) != Lower(PageSegment(url))) ==> CurrentPage(url) == "AI"
  {
    FindPageSpec(PageNames, PageSegment(url));
  }

  /** Case does not matter: two URLs whose segments agree in lower case show
      the same page. */
  lemma {:induction false} CaseInsensitive(names: seq<string>, a: string, b: string)
    requires Lower(a) == Lower(b)
    ensures FindPage(names, a) == FindPage(names, b)
  {
    if names != [] {
      CaseInsensitive(names[1..], a, b);
    }
  }

  /** One trailing slash is ignored (a second one is not: it leaves an
      empty last segment). */
  lemma TrailingSlashIgnored(url: string)
    requires url == "" || url[|url| - 1] != '/'
    ensures CurrentPage(url + "/") == CurrentPage(url)
  {
    var slashed := url + "/";
    assert slashed[..|slashed| - 1] == url;
    assert DropTrailingSlash(slashed) == url;
    SameSegmentSamePage(slashed, url);
  }

  lemma SameSegmentSamePage(a: string, b: string)
    requires PageSegment(a) == PageSegment(b)
    ensures CurrentPage(a) == CurrentPage(b)
  {
  }

  /** Only the last segment matters: whatever path precedes it. */
  lemma {:induction false} OnlyLastSegmentMatters(path: string, segment: string)
    requires '/' !in segment
    ensures LastSegment(path + "/" + segment) == segment
  {
    var s := path + "/" + segment;
    var r := LastSegment(s);
    assert s[|s| - |segment|..] == segment;
    assert s[|s| - |segment| - 1] == '/';
    if |r| < |segment| {
      assert false;
    } else if |r| > |segment| {
      assert false;
    }
  }

  /** A query after the segment is ignored. */
  lemma {:induction false} QueryIgnored(segment: string, query: string)
    requires '?' !in segment
    ensures BeforeQuery(segment + "?" + query) == segment
  {
    var s := segment + "?" + query;
    var r := BeforeQuery(s);
    assert s[..|segment|] == segment;
    assert s[|segment|] == '?';
    if |r| < |segment| {
      assert false;
    } else if |r| > |segment| {
      assert false;
    }
  }

  /** A last segment without a slash or a query is matched as it is,
      whatever path precedes it. */
  lemma PlainSegment(path: string, segment: string)
    requires segment != "" && '/' !in segment && '?' !in segment
    ensures PageSegment(path + "/" + segment) == segment
  {
    var url := path + "/" + segment;
    assert url[|url| - 1] == segment[|segment| - 1];
    assert DropTrailingSlash(url) == url;
    OnlyLastSegmentMatters(path, segment);
    QueryFree(segment);
  }

  /** Strings that agree letter by letter up to case agree in lower case. */
  lemma SameLower(a: string, b: string)
    requires |a| == |b|
    requires forall i :: 0 <= i < |a| ==> LowerChar(a[i]) == LowerChar(b[i])
    ensures Lower(a) == Lower(b)
  {
    LowerSpec(a);
    LowerSpec(b);
  }

  /** "BinaryTerminal" and "binaryterminal" agree ignoring case. (The
      examples name their values through parameters so that the verifier
      reasons about them step by step instead of evaluating every function
      on the literals.) */
  lemma TerminalCases(upper: string, lower: string)
    requires upper == "BinaryTerminal" && lower == "binaryterminal"
    ensures Lower(upper) == Lower(lower)
  {
    SameLower(upper, lower);
  }

  /** Matching ignores case: the segment "binaryterminal" finds
      BinaryTerminal. */
  lemma FindsLowerCase(names: seq<string>, segment: string)
    requires names == PageNames && segment == "binaryterminal"
    ensures FindPage(names, segment) == Some("BinaryTerminal")
  {
    var upper := names[5];
    FindsTerminal(names);
    TerminalCases(upper, segment);
    CaseInsensitive(names, upper, segment);
  }

  lemma FindsTerminal(names: seq<string>)
    requires names == PageNames
    ensures names[5] == "BinaryTerminal" && FindPage(names, names[5]) == Some(names[5])
  {
    assert |names[0]| == 2 && |names[1]| == 4 && |names[2]| == 8 && |names[3]| == 8 && |names[4]| == 7 && |names[5]| == 14;
    FindsDistinct(names, 5);
  }

  lemma FindsLogs(names: seq<string>, logs: string)
    requires names == PageNames && logs == "Logs"
    ensures FindPage(names, logs) == Some("Logs")
  {
    assert names[1] == logs;
    assert |names[0]| == 2 && |names[1]| == 4;
    FindsDistinct(names, 1);
  }

  lemma FindsSettings(names: seq<string>, settings: string)
    requires names == PageNames && settings == "Settings"
    ensures FindPage(names, settings) == Some("Settings")
  {
    assert names[3] == settings;
    assert |names[0]| == 2 && |names[1]| == 4 && names[2][0] == 'B' && names[3][0] == 'S';
    FindsDistinct(names, 3);
  }

  /** The page found for a name in the list is that name when every
      earlier name differs from it in length or in its first letter
      ignoring case. */
  lemma FindsDistinct(names: seq<string>, k: nat)
    requires k < |names|
    requires forall j :: 0 <= j < k ==> |names[j]| != |names[k]| || (names[j] != "" && names[k] != "" && LowerChar(names[j][0]) != LowerChar(names[k][0]))
    ensures FindPage(names, names[k]) == Some(names[k])
  {
    forall j | 0 <= j < k
      ensures Lower(names[j]) != Lower(names[k])
    {
      LowerDiffers(names[j], names[k]);
    }
    FirstMatches(names, k);
  }

  /** Strings of different lengths, or whose first letters differ ignoring
      case, differ in lower case. */
  lemma LowerDiffers(a: string, b: string)
    requires |a| != |b| || (a != "" && b != "" && LowerChar(a[0]) != LowerChar(b[0]))
    ensures Lower(a) != Lower(b)
  {
    LowerSpec(a);
    LowerSpec(b);
    if |a| == |b| {
      assert Lower(a)[0] != Lower(b)[0];
    }
  }

  /** No page name is empty, so an empty segment finds nothing. */
  lemma EmptyFindsNothing(names: seq<string>, empty: string)
    requires names == PageNames && empty == ""
    ensures FindPage(names, empty) == None
  {
    FindPageSpec(names, empty);
    LowerSpec(empty);
    NoEmptyName(names);
    forall n | n in names ensures Lower(n) != Lower(empty) {
      LowerSpec(n);
    }
  }

  lemma NoEmptyName(names: seq<string>)
    requires names == PageNames
    ensures forall n :: n in names ==> |n| > 0
  {
    forall n | n in names ensures |n| > 0 {
      var k :| 0 <= k < |names| && names[k] == n;
    }
  }

  lemma ShowsFound(url: string, segment: string, page: string)
    requires PageSegment(url) == segment && FindPage(PageNames, segment) == Some(page)
    ensures CurrentPage(url) == page
  {
  }

  /** "/binaryterminal" shows BinaryTerminal. */
  lemma LowerCaseExample(url: string, segment: string)
    requires url == "/binaryterminal" && segment == "binaryterminal"
    ensures CurrentPage(url) == "BinaryTerminal"
  {
    assert url == "" + "/" + segment;
    PlainSegment("", segment);
    FindsLowerCase(PageNames, segment);
    ShowsFound(url, segment, "BinaryTerminal");
  }

  /** "/Logs" shows Logs. */
  lemma LogsExample(url: string, segment: string)
    requires url == "/Logs" && segment == "Logs"
    ensures CurrentPage(url) == "Logs"
  {
    FindsLogs(PageNames, segment);
    assert url == "" + "/" + segment;
    PlainSegment("", segment);
    ShowsFound(url, segment, "Logs");
  }

  /** "/Logs/" shows Logs: one trailing slash is dropped. */
  lemma SlashExample(url: string, withSlash: string)
    requires url == "/Logs" && withSlash == "/Logs/"
    ensures CurrentPage(withSlash) == "Logs"
  {
    assert withSlash == url + "/";
    assert url[|url| - 1] == 's';
    TrailingSlashIgnored(url);
    LogsExample(url, "Logs");
  }

  /** "/Logs?x=1" shows Logs: the query is dropped. */
  lemma QueryExample(url: string, segment: string, query: string)
    requires url == "/Logs?x=1" && segment == "Logs" && query == "x=1"
    ensures CurrentPage(url) == "Logs"
  {
    assert url[|url| - 1] == '1';
    assert DropTrailingSlash(url) == url;
    assert url == "" + "/" + (segment + "?" + query);
    OnlyLastSegmentMatters("", segment + "?" + query);
    QueryIgnored(segment, query);
    FindsLogs(PageNames, segment);
    ShowsFound(url, segment, "Logs");
  }

  /** "/a/Settings" shows Settings: only the last segment counts. */
  lemma PathExample(url: string, segment: string)
    requires url == "/a/Settings" && segment == "Settings"
    ensures CurrentPage(url) == "Settings"
  {
    assert url == "/a" + "/" + segment;
    PlainSegment("/a", segment);
    FindsSettings(PageNames, segment);
    ShowsFound(url, segment, "Settings");
  }

  /** The root "/" shows the first page. */
  lemma RootExample(root: string)
    requires root == "/"
    ensures CurrentPage(root) == "AI"
  {
    RootSegment(root, "");
    EmptyFindsNothing(PageNames, "");
  }

  /** The root's segment is empty. */
  lemma RootSegment(root: string, empty: string)
    requires root == "/" && empty == ""
    ensures PageSegment(root) == empty
  {
    assert root[..|root| - 1] == empty;
    assert DropTrailingSlash(root) == empty;
    assert LastSegment(empty) == empty;
    assert BeforeQuery(empty) == empty;
  }

  /** The search returns the first name, in order, that matches. */
  lemma {:induction false} FirstMatches(names: seq<string>, k: nat)
    requires k < |names|
    requires forall j :: 0 <= j < k ==> Lower(names[j]) != Lower(names[k])
    ensures FindPage(names, names[k]) == Some(names[k])
  {
    if k > 0 {
      FirstMatches(names[1..], k - 1);
    }
  }

  /** A segment without a question mark is kept whole. */
  lemma QueryFree(segment: string)
    requires '?' !in segment
    ensures BeforeQuery(segment) == segment
  {
  }
}
