/** The changelog's addresses, printed and read back, and its feed's CDATA sections. */
module Changelog {
  import opened Basics
  import Cutting
  import opened Text

  datatype Release = Release(version: string, notes: string)

  datatype View =
    | Page(page: nat, count: nat, shown: seq<Release>)
    | Single(release: Release, newer: Option<Release>, older: Option<Release>)

  datatype Route = Route(path: string, file: string, view: View)

  const PAGE_SIZE := 10
  const CHANGELOG := "/changelog"
  const PAGES := "/changelog/page/"
  const RELEASES := "/changelog/"
  const HTML := ".html"

  // ---- numbers and versions ----

  function DigitOf(d: nat): (c: char)
    requires d < 10
    ensures Digit(c) && DigitValue(c) == d
  {
    '0' + d as char
  }

  predicate Number(text: string) {
    text != "" && forall i :: 0 <= i < |text| ==> Digit(text[i])
  }

  function Printed(n: nat): string {
    (if n < 10 then "" else Printed(n / 10)) + [DigitOf(n % 10)]
  }

  function Value(text: string): nat
    requires forall i :: 0 <= i < |text| ==> Digit(text[i])
  {
    if text == "" then 0 else 10 * Value(text[..|text| - 1]) + DigitValue(text[|text| - 1])
  }

  predicate Version(text: string) {
    var parts := Cutting.Split(text, '.');
    |parts| == 3 && Number(parts[0]) && Number(parts[1]) && Number(parts[2])
  }

  // ---- the views ----

  function PageCount(releases: seq<Release>): nat {
    var filled := (|releases| + PAGE_SIZE - 1) / PAGE_SIZE;
    if filled < 1 then 1 else filled
  }

  /** `slice`, held to the sequence's ends. */
  function Slice(releases: seq<Release>, from: nat, to: nat): seq<Release> {
    if from >= |releases| || from >= to then []
    else releases[from..if to <= |releases| then to else |releases|]
  }

  function PageView(releases: seq<Release>, page: nat): View
    requires page >= 1
  {
    var start := (page - 1) * PAGE_SIZE;
    Page(page, PageCount(releases), Slice(releases, start, start + PAGE_SIZE))
  }

  function ReleaseAt(releases: seq<Release>, i: int): Option<Release> {
    if 0 <= i < |releases| then Some(releases[i]) else None
  }

  function ReleaseView(releases: seq<Release>, i: int): Option<View> {
    if 0 <= i < |releases| then Some(Single(releases[i], ReleaseAt(releases, i - 1), ReleaseAt(releases, i + 1)))
    else None
  }

  // ---- the addresses printed ----

  function PagePath(page: nat): string {
    if page == 1 then CHANGELOG else PAGES + Printed(page)
  }

  function PageRoute(releases: seq<Release>, page: nat): Route
    requires page >= 1
  {
    Route(PagePath(page), if page == 1 then "changelog.html" else "changelog/page/" + Printed(page) + HTML,
          PageView(releases, page))
  }

  function ReleaseRoute(releases: seq<Release>, i: nat): Route
    requires i < |releases|
  {
    Route(RELEASES + releases[i].version, "changelog/" + releases[i].version + HTML, ReleaseView(releases, i).value)
  }

  /** `changelogRoutes`: a page's route for each page, then a release's for each release. */
  function Routes(releases: seq<Release>): seq<Route> {
    seq(PageCount(releases), i requires 0 <= i => PageRoute(releases, i + 1))
    + seq(|releases|, i requires 0 <= i < |releases| => ReleaseRoute(releases, i))
  }

  // ---- the addresses read ----

  function WithoutSlashes(path: string): string {
    if path != "" && path[|path| - 1] == '/' then WithoutSlashes(path[..|path| - 1]) else path
  }

  function WithoutHtml(path: string): string {
    if |HTML| <= |path| && path[|path| - |HTML|..] == HTML then path[..|path| - |HTML|] else path
  }

  function PageNumber(path: string): Option<nat> {
    if PAGES <= path && Number(path[|PAGES|..]) then Some(Value(path[|PAGES|..])) else None
  }

  function VersionIn(path: string): Option<string> {
    if RELEASES <= path && Version(path[|RELEASES|..]) then Some(path[|RELEASES|..]) else None
  }

  /** `findIndex`: the first release of a version, or -1. */
  function IndexOf(releases: seq<Release>, version: string): int {
    if releases == [] then -1
    else if releases[0].version == version then 0
    else
      var later := IndexOf(releases[1..], version);
      if later < 0 then -1 else 1 + later
  }

  function ViewAt(releases: seq<Release>, path: string): Option<View> {
    if path == CHANGELOG then Some(PageView(releases, 1))
    else
      var page, version := PageNumber(path), VersionIn(path);
      if page.Some? then if 2 <= page.value <= PageCount(releases) then Some(PageView(releases, page.value)) else None
      else if version.Some? then ReleaseView(releases, IndexOf(releases, version.value))
      else None
  }

  /** `changelogViewForPath`. */
  function ViewForPath(releases: seq<Release>, pathname: string): Option<View> {
    ViewAt(releases, WithoutHtml(WithoutSlashes(pathname)))
  }

  // ---- numbers ----

  lemma {:induction false} PrintedBack(n: nat)
    ensures Number(Printed(n)) && Value(Printed(n)) == n
  {
    var front, last := if n < 10 then "" else Printed(n / 10), DigitOf(n % 10);
    if n >= 10 {
      PrintedBack(n / 10);
    }
    ValuePushed(front, last);
  }

  lemma ValuePushed(front: string, last: char)
    requires (front == "" || Number(front)) && Digit(last)
    ensures Number(front + [last]) && Value(front + [last]) == 10 * Value(front) + DigitValue(last)
  {
    var text := front + [last];
    assert text[..|text| - 1] == front;
  }

  // ---- the pages hold the releases ----

  /** The releases of pages 1 to `count`, one after another. */
  function Paged(releases: seq<Release>, count: nat): seq<Release> {
    if count == 0 then [] else Paged(releases, count - 1) + PageView(releases, count).shown
  }

  lemma {:induction false} PagedTo(releases: seq<Release>, count: nat)
    ensures Paged(releases, count) == Slice(releases, 0, count * PAGE_SIZE)
  {
    if count > 0 {
      PagedTo(releases, count - 1);
    }
  }

  /**
   * The pages hold every release once, in order, at most ten to a page; none is empty but the only page of no releases.
   */
  lemma PagesHold(releases: seq<Release>)
    ensures Paged(releases, PageCount(releases)) == releases
    ensures forall page :: 1 <= page <= PageCount(releases) ==>
      |PageView(releases, page).shown| <= PAGE_SIZE
      && (PageView(releases, page).shown == [] <==> releases == [])
  {
    PagedTo(releases, PageCount(releases));
    assert releases[0..|releases|] == releases;
    forall page | 1 <= page <= PageCount(releases)
      ensures |PageView(releases, page).shown| <= PAGE_SIZE
        && (PageView(releases, page).shown == [] <==> releases == [])
    {
      assert releases != [] ==> (page - 1) * PAGE_SIZE < |releases|;
    }
  }

  // ---- reading back ----

  predicate EndsPlain(path: string) {
    path != "" && Digit(path[|path| - 1])
  }

  /** An address that ends in a digit reads as itself, with slashes after it or as its built file. */
  lemma PlainReads(path: string)
    requires EndsPlain(path) || path == CHANGELOG
    ensures WithoutHtml(WithoutSlashes(path)) == path
    ensures WithoutHtml(WithoutSlashes(path + HTML)) == path
  {
    assert (path + HTML)[|path|..] == HTML && (path + HTML)[..|path|] == path;
    assert HTML[|HTML| - 1] == 'l';
  }

  lemma {:induction false} SlashesDropped(path: string, slashes: string)
    requires forall i :: 0 <= i < |slashes| ==> slashes[i] == '/'
    ensures WithoutSlashes(path + slashes) == WithoutSlashes(path)
  {
    if slashes == "" {
      assert path + slashes == path;
    } else {
      var n := |slashes| - 1;
      assert (path + slashes)[..|path| + n] == path + slashes[..n];
      SlashesDropped(path, slashes[..n]);
    }
  }

  lemma NumberRead(number: string)
    requires Number(number)
    ensures EndsPlain(PAGES + number) && PAGES + number != CHANGELOG
    ensures PageNumber(PAGES + number) == Some(Value(number))
  {
    var path := PAGES + number;
    assert path[|PAGES|..] == number && path[|path| - 1] == number[|number| - 1];
    assert |path| > |CHANGELOG|;
  }

  lemma PageReads(releases: seq<Release>, page: nat)
    requires 1 <= page <= PageCount(releases)
    ensures EndsPlain(PagePath(page)) || PagePath(page) == CHANGELOG
    ensures ViewAt(releases, PagePath(page)) == Some(PageView(releases, page))
  {
    if page != 1 {
      PrintedBack(page);
      NumberRead(Printed(page));
    }
  }

  lemma PageFile(releases: seq<Release>, page: nat)
    requires page >= 1
    ensures "/" + PageRoute(releases, page).file == PagePath(page) + HTML
  {
    if page != 1 {
      var number := Printed(page);
      assert "/" + ("changelog/page/" + number + HTML) == PAGES + number + HTML;
    }
  }

  lemma SplitRest(s: string, at: char)
    requires |Cutting.Split(s, at)| > 1
    ensures var i := Cutting.FirstCut(s, at);
      i < |s| && Cutting.Split(s, at)[0] == s[..i] && Cutting.Split(s, at)[1..] == Cutting.Split(s[i + 1..], at)
  {
    var i := Cutting.FirstCut(s, at);
    assert i < |s| ==> Cutting.Split(s, at) == [s[..i]] + Cutting.Split(s[i + 1..], at);
  }

  lemma SplitWhole(s: string, at: char)
    requires |Cutting.Split(s, at)| == 1
    ensures Cutting.Split(s, at) == [s]
  {
    var i := Cutting.FirstCut(s, at);
    assert i < |s| ==> |Cutting.Split(s[i + 1..], at)| > 0;
  }

  lemma VersionEnds(version: string)
    requires Version(version)
    ensures version != "" && Digit(version[0]) && Digit(version[|version| - 1])
  {
    var parts := Cutting.Split(version, '.');
    SplitRest(version, '.');
    var first := parts[0];
    var second := version[|first| + 1..];
    assert first[0] == version[0];
    assert Cutting.Split(second, '.') == parts[1..];
    SplitRest(second, '.');
    var third := second[Cutting.FirstCut(second, '.') + 1..];
    assert Cutting.Split(third, '.') == parts[1..][1..];
    SplitWhole(third, '.');
    assert third == parts[2] && Digit(third[|third| - 1]);
    assert third[|third| - 1] == second[|second| - 1] == version[|version| - 1];
  }

  predicate Distinct(releases: seq<Release>) {
    forall i, j :: 0 <= i < j < |releases| ==> releases[i].version != releases[j].version
  }

  predicate Versioned(releases: seq<Release>) {
    forall i :: 0 <= i < |releases| ==> Version(releases[i].version)
  }

  lemma {:induction false} IndexFound(releases: seq<Release>, i: nat)
    requires Distinct(releases) && i < |releases|
    ensures IndexOf(releases, releases[i].version) == i
  {
    if i > 0 {
      IndexFound(releases[1..], i - 1);
    }
  }

  lemma {:induction false} IndexIn(releases: seq<Release>, version: string)
    ensures -1 <= IndexOf(releases, version) < |releases|
    ensures IndexOf(releases, version) >= 0 ==> releases[IndexOf(releases, version)].version == version
  {
    if releases != [] {
      IndexIn(releases[1..], version);
    }
  }

  lemma VersionRead(version: string)
    requires Version(version)
    ensures EndsPlain(RELEASES + version) && RELEASES + version != CHANGELOG
    ensures PageNumber(RELEASES + version) == None && VersionIn(RELEASES + version) == Some(version)
  {
    VersionEnds(version);
    var path := RELEASES + version;
    assert path[|RELEASES|..] == version && path[|path| - 1] == version[|version| - 1];
    assert path[|RELEASES|] == version[0] && PAGES[|RELEASES|] == 'p';
    assert |path| > |CHANGELOG|;
  }

  lemma ReleaseReads(releases: seq<Release>, i: nat)
    requires Distinct(releases) && Versioned(releases) && i < |releases|
    ensures EndsPlain(ReleaseRoute(releases, i).path)
    ensures ViewAt(releases, ReleaseRoute(releases, i).path) == ReleaseView(releases, i)
  {
    VersionRead(releases[i].version);
    IndexFound(releases, i);
  }

  lemma ReleaseFile(releases: seq<Release>, i: nat)
    requires i < |releases|
    ensures "/" + ReleaseRoute(releases, i).file == ReleaseRoute(releases, i).path + HTML
  {
    var version := releases[i].version;
    assert "/" + ("changelog/" + version + HTML) == RELEASES + version + HTML;
  }

  /** A route's path reads as its view, and its file's name is its path's. */
  predicate ReadsAs(releases: seq<Release>, route: Route) {
    && (EndsPlain(route.path) || route.path == CHANGELOG)
    && ViewAt(releases, route.path) == Some(route.view)
    && "/" + route.file == route.path + HTML
  }

  lemma PageReadsAs(releases: seq<Release>, page: nat)
    requires 1 <= page <= PageCount(releases)
    ensures ReadsAs(releases, PageRoute(releases, page))
  {
    PageReads(releases, page);
    PageFile(releases, page);
  }

  lemma ReleaseReadsAs(releases: seq<Release>, i: nat)
    requires Distinct(releases) && Versioned(releases) && i < |releases|
    ensures ReadsAs(releases, ReleaseRoute(releases, i))
  {
    ReleaseReads(releases, i);
    ReleaseFile(releases, i);
  }

  lemma RouteReads(releases: seq<Release>, i: nat)
    requires Distinct(releases) && Versioned(releases) && i < |Routes(releases)|
    ensures ReadsAs(releases, Routes(releases)[i])
  {
    RouteAt(releases, i);
    var n := PageCount(releases);
    if i < n {
      PageReadsAs(releases, i + 1);
    } else {
      ReleaseReadsAs(releases, i - n);
    }
  }

  lemma RouteAt(releases: seq<Release>, i: nat)
    requires i < |Routes(releases)|
    ensures Routes(releases)[i]
      == var n := PageCount(releases); if i < n then PageRoute(releases, i + 1) else ReleaseRoute(releases, i - n)
  {
  }

  /** Every generated route reads back as its own view: at its path, with slashes after it, and as its built file. */
  lemma RouteReadsBack(releases: seq<Release>, i: nat, slashes: string)
    requires Distinct(releases) && Versioned(releases) && i < |Routes(releases)|
    requires forall k :: 0 <= k < |slashes| ==> slashes[k] == '/'
    ensures var route := Routes(releases)[i];
      && ViewForPath(releases, route.path + slashes) == Some(route.view)
      && ViewForPath(releases, "/" + route.file + slashes) == Some(route.view)
  {
    var route := Routes(releases)[i];
    RouteReads(releases, i);
    PlainReads(route.path);
    SlashesDropped(route.path, slashes);
    SlashesDropped("/" + route.file, slashes);
  }

  /** A release's address shows it between the one listed before it, which is newer, and the one listed after it. */
  lemma ReleaseShown(releases: seq<Release>, i: nat)
    requires Distinct(releases) && Versioned(releases) && i < |releases|
    ensures ViewForPath(releases, "/changelog/" + releases[i].version) == Some(Single(
      releases[i],
      if i == 0 then None else Some(releases[i - 1]),
      if i == |releases| - 1 then None else Some(releases[i + 1])))
  {
    ReleaseReads(releases, i);
    PlainReads(RELEASES + releases[i].version);
  }

  /** A page's number in an address shows that page from the second on, and past the last page nothing. */
  lemma NumberShown(releases: seq<Release>, number: string)
    requires Number(number)
    ensures ViewForPath(releases, "/changelog/page/" + number)
      == if 2 <= Value(number) <= PageCount(releases) then Some(PageView(releases, Value(number))) else None
  {
    NumberRead(number);
    PlainReads(PAGES + number);
  }

  /** A version no release has shows nothing. */
  lemma UnlistedShowsNothing(releases: seq<Release>, version: string)
    requires Version(version) && forall i :: 0 <= i < |releases| ==> releases[i].version != version
    ensures ViewForPath(releases, "/changelog/" + version) == None
  {
    VersionRead(version);
    PlainReads(RELEASES + version);
    IndexIn(releases, version);
  }

  /** A page shows ten releases from where those before it left off, the last page what is left of them. */
  lemma PageShown(releases: seq<Release>, page: nat, k: nat)
    requires 1 <= page <= PageCount(releases)
    ensures var view := ViewForPath(releases, PagePath(page));
      && view.Some? && view.value.Page? && view.value.page == page && view.value.count == PageCount(releases)
      && (page < view.value.count ==> |view.value.shown| == 10)
      && (k < |view.value.shown| ==>
            10 * (page - 1) + k < |releases| && view.value.shown[k] == releases[10 * (page - 1) + k])
  {
    PageReads(releases, page);
    PlainReads(PagePath(page));
  }

  /** No address shows a view that no generated route has. */
  lemma OnlyRoutesShown(releases: seq<Release>, pathname: string)
    requires ViewForPath(releases, pathname).Some?
    ensures exists i :: 0 <= i < |Routes(releases)| && Routes(releases)[i].view == ViewForPath(releases, pathname).value
  {
    var path := WithoutHtml(WithoutSlashes(pathname));
    var page := if path == CHANGELOG then Some(1) else PageNumber(path);
    if page.Some? {
      assert Routes(releases)[page.value - 1].view == PageView(releases, page.value);
    } else {
      var at := IndexOf(releases, VersionIn(path).value);
      IndexIn(releases, VersionIn(path).value);
      assert Routes(releases)[PageCount(releases) + at] == ReleaseRoute(releases, at);
    }
  }

  lemma ViewsApart(releases: seq<Release>, i: nat, j: nat)
    requires Distinct(releases) && i < j < |Routes(releases)|
    ensures Routes(releases)[i].view != Routes(releases)[j].view
  {
    var n := PageCount(releases);
    if j < n {
      assert Routes(releases)[i].view.page == i + 1 && Routes(releases)[j].view.page == j + 1;
    } else if i < n {
      assert Routes(releases)[i].view.Page? && Routes(releases)[j].view.Single?;
    } else {
      assert Routes(releases)[i].view.release == releases[i - n] && Routes(releases)[j].view.release == releases[j - n];
      assert releases[i - n].version != releases[j - n].version;
    }
  }

  /** No two routes share an address or a built file. */
  lemma RoutesApart(releases: seq<Release>, i: nat, j: nat)
    requires Distinct(releases) && Versioned(releases) && i < j < |Routes(releases)|
    ensures Routes(releases)[i].path != Routes(releases)[j].path && Routes(releases)[i].file != Routes(releases)[j].file
  {
    RouteReadsBack(releases, i, "");
    RouteReadsBack(releases, j, "");
    ViewsApart(releases, i, j);
    assert Routes(releases)[i].path + "" == Routes(releases)[i].path;
    assert Routes(releases)[j].path + "" == Routes(releases)[j].path;
  }

  // ---- CDATA ----

  const OPEN := "<![CDATA["
  const END := "]]>"
  const SPLIT := "]]]]><![CDATA[>"

  function AsCdata(html: string): string {
    OPEN + ReplaceAll(html, END, SPLIT) + END
  }

  /** A run of CDATA sections as XML reads them (section 2.7 of XML 1.0): each ends at the first `]]>` in it. */
  function SectionsRead(text: string): Option<string>
    decreases |text|
  {
    if text == "" then Some("") else if OPEN <= text then ContentRead(text[|OPEN|..]) else None
  }

  function ContentRead(text: string): Option<string>
    decreases |text|
  {
    if text == "" then None
    else if END <= text then SectionsRead(text[|END|..])
    else
      var rest := ContentRead(text[1..]);
      if rest.Some? then Some([text[0]] + rest.value) else None
  }

  /** What follows a section's opening. */
  function Body(html: string): string {
    ReplaceAll(html, END, SPLIT) + END
  }

  lemma BodyStarts(html: string)
    ensures |Body(html)| >= 3
    ensures html == "" ==> Body(html) == END
    ensures END <= html ==> Body(html) == SPLIT + Body(html[|END|..])
    ensures html != "" && !(END <= html) ==> Body(html)[0] == html[0] && Body(html)[1..] == Body(html[1..])
    ensures html == "" || END <= html ==> Body(html)[0] == ']' && Body(html)[1] == ']'
  {
  }

  /** No end stands where the text has none: neither the one written after it nor one put in comes so far forward. */
  lemma NoEndAhead(html: string)
    requires html != "" && !(END <= html)
    ensures !(END <= Body(html))
  {
    BodyStarts(html);
    BodyStarts(html[1..]);
    if html[1..] != "" {
      BodyStarts(html[1..][1..]);
    }
  }

  function Read(first: char, rest: Option<string>): Option<string> {
    if rest.Some? then Some([first] + rest.value) else None
  }

  lemma CharRead(c: char, rest: string)
    requires !(END <= [c] + rest)
    ensures ContentRead([c] + rest) == Read(c, ContentRead(rest))
  {
    assert ([c] + rest)[1..] == rest;
  }

  /** A section closed and the next one opened. */
  lemma SeamRead(rest: string)
    ensures ContentRead(END + (OPEN + rest)) == ContentRead(rest)
  {
    assert (END + (OPEN + rest))[|END|..] == OPEN + rest && (OPEN + rest)[|OPEN|..] == rest;
  }

  /**
   * The split reads as the end it was put in for: two brackets close the first section, the third character opens the
   * next.
   */
  lemma SplitRead(after: string)
    ensures ContentRead(SPLIT + after) == Read(']', Read(']', Read('>', ContentRead(after))))
  {
    var seam := END + (OPEN + (['>'] + after));
    assert SPLIT + after == [']'] + ([']'] + seam);
    assert seam[0] == ']' && ([']'] + ([']'] + seam))[2] == seam[0] && ([']'] + seam)[2] == seam[1] == ']';
    CharRead(']', [']'] + seam);
    CharRead(']', seam);
    SeamRead(['>'] + after);
    CharRead('>', after);
  }

  lemma {:induction false} BodyRead(html: string)
    ensures ContentRead(Body(html)) == Some(html)
    decreases |html|
  {
    BodyStarts(html);
    if html == "" {
      assert END[|END|..] == "";
    } else if END <= html {
      BodyRead(html[|END|..]);
      SplitRead(Body(html[|END|..]));
      assert [']'] + ([']'] + (['>'] + html[|END|..])) == html;
    } else {
      NoEndAhead(html);
      BodyRead(html[1..]);
      assert [html[0]] + html[1..] == html;
    }
  }

  /** Notes printed as CDATA and read as XML reads them are the notes, whatever they hold. */
  lemma CdataReadsBack(html: string)
    ensures SectionsRead(AsCdata(html)) == Some(html)
  {
    BodyRead(html);
    assert AsCdata(html) == OPEN + Body(html);
    assert (OPEN + Body(html))[|OPEN|..] == Body(html);
  }
}
