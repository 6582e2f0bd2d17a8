/**
 * Landing and then dispatching, together: what of the client's request reaches the route, and which route it reaches.
 */
module DispatchTheorems {
  import opened Basics
  import opened Patterns
  import opened Rewrites
  import opened Landing
  import opened Functions
  import opened Queries
  import opened Paths
  import opened Dispatch
  import Cutting

  /** A function whose path a destination, and a URL, holds as it stands. */
  predicate CleanFile(d: Definition) {
    '$' !in d.file && UrlPath("/" + PublicPath(d))
  }

  /** The caller's query as its route reads it: its own pairs in their order, the rewrite's two names left out. */
  function Own(caller: seq<Pair>): seq<Pair> {
    Without(Without(caller, ROUTE), PATH)
  }

  /**
   * Where a rule of a function lands a request: on the function, its route's key first in the query, the caller's pairs
   * last.
   */
  lemma LandedOn(path: string, caller: seq<Pair>, rule: Rewrite, d: Definition, route: string, query: Option<string>)
    requires Takes(rule, path) && rule.dest == Dest(d, route, query)
    requires CleanFile(d) && Plain(route)
    ensures var groups := Groups(Read(rule.src).value, path).value;
      Landed(path, caller, rule) == Url("/" + PublicPath(d), [(ROUTE, route)]
        + (if query.None? then [] else Pairs(Written(query.value, path, groups))) + caller)
  {
    var groups := Groups(Read(rule.src).value, path).value;
    var added := if query.None? then None else Some(Written(query.value, path, groups));
    DestWritten(d, route, query, path, groups);
    RouteName();
    TextUrl(LandedPath(path, rule), "/" + PublicPath(d), ROUTE, route, added);
  }

  /** Wherever a rule lands a request, the path it lands at is one a URL may have. */
  lemma LandsAtPath(path: string, caller: seq<Pair>, rule: Rewrite)
    requires Takes(rule, path)
    ensures UrlPath(Landed(path, caller, rule).path)
  {
    var text := LandedPath(path, rule);
    SetIsUrlPath(text[..Cutting.FirstCut(text, '?')]);
  }

  lemma TextUrl(text: string, file: string, name: string, route: string, added: Option<string>)
    requires UrlPath(file) && ParameterName(name) && Plain(route)
    requires text == file + "?" + (name + "=" + route) + (if added.None? then "" else "&" + added.value)
    ensures UrlOf(text) == Url(file, [(name, route)] + (if added.None? then [] else Pairs(added.value)))
  {
    if added.None? {
      UrlAlone(file, name, route);
    } else {
      UrlAdded(file, name, route, added.value);
    }
  }

  lemma UrlAlone(file: string, name: string, route: string)
    requires UrlPath(file) && ParameterName(name) && Plain(route)
    ensures UrlOf(file + "?" + (name + "=" + route) + "") == Url(file, [(name, route)])
  {
    assert file + "?" + (name + "=" + route) + "" == file + "?" + (name + "=" + route);
    FileCut(file, name + "=" + route);
    RoutePairs(name, route, "");
  }

  lemma UrlAdded(file: string, name: string, route: string, added: string)
    requires UrlPath(file) && ParameterName(name) && Plain(route)
    ensures UrlOf(file + "?" + (name + "=" + route) + ("&" + added)) == Url(file, [(name, route)] + Pairs(added))
  {
    Regrouped(file + "?", name + "=" + route, "&" + added);
    Regrouped(name + "=" + route, "&", added);
    FileCut(file, name + "=" + route + "&" + added);
    RoutePairs(name, route, added);
  }

  /** A destination up to its route's key. */
  function Front(d: Definition, route: string): string {
    "/" + PublicPath(d) + "?" + (ROUTE + "=" + route)
  }

  lemma FrontOf(d: Definition, route: string, query: Option<string>)
    requires '$' !in d.file && Plain(route)
    ensures '$' !in Front(d, route)
    ensures Dest(d, route, query) == Front(d, route) + if query.None? then "" else "&" + query.value
  {
  }

  lemma DestWritten(d: Definition, route: string, query: Option<string>, path: string, groups: seq<string>)
    requires '$' !in d.file && Plain(route)
    ensures Written(Dest(d, route, query), path, groups)
      == Front(d, route) + (if query.None? then "" else "&" + Written(query.value, path, groups))
  {
    FrontOf(d, route, query);
    WrittenPlain(Front(d, route), if query.None? then "" else "&" + query.value, path, groups);
    if query.Some? {
      WrittenPlain("&", query.value, path, groups);
    }
  }

  lemma FileCut(file: string, query: string)
    requires UrlPath(file)
    ensures UrlOf(file + "?" + query) == Url(file, Pairs(query))
  {
    var text := file + "?" + query;
    HeldUnasked(file);
    SetKeepsExactly(file);
    assert text[..|file|] == file && text[|file|] == '?' && text[|file| + 1..] == query;
    Cutting.UniqueCut(text, '?', |file|);
  }

  /** The dispatcher takes the first key and the first carried path, and hands on every pair of neither name. */
  lemma DispatchedOn(held: set<string>, file: string, route: string, more: seq<Pair>, caller: seq<Pair>)
    ensures var handing := Dispatched(held, Url(file, [(ROUTE, route)] + more + caller));
      var member := MemberFor(held, Some(route));
      var carried := First(more + caller, PATH);
      if member.None? then handing == NotFound
      else handing == Handed(member.value, Url(RestoredPath(member.value, carried, file), Own(more) + Own(caller)))
  {
    assert [(ROUTE, route)] + more + caller == [(ROUTE, route)] + (more + caller);
    KeyFirst(ROUTE, PATH, route, more + caller);
    WithoutBoth(ROUTE, PATH, more, caller);
  }

  lemma KeyFirst(key: string, other: string, value: string, more: seq<Pair>)
    requires key != other
    ensures var pairs := [(key, value)] + more;
      && First(pairs, key) == Some(value) && First(pairs, other) == First(more, other)
      && Without(pairs, key) == Without(more, key)
  {
    var pairs := [(key, value)] + more;
    assert pairs[1..] == more;
    assert [] + Without(more, key) == Without(more, key);
  }

  lemma WithoutBoth(a: string, b: string, more: seq<Pair>, caller: seq<Pair>)
    ensures Without(Without(more + caller, a), b) == Without(Without(more, a), b) + Without(Without(caller, a), b)
  {
    WithoutConcat(more, caller, a);
    WithoutConcat(Without(more, a), Without(caller, a), b);
  }

  /** A name's first value stands at `i`. */
  predicate FirstAt(pairs: seq<Pair>, i: nat, name: string, value: string) {
    i < |pairs| && pairs[i] == (name, value) && forall j :: 0 <= j < i ==> pairs[j].0 != name
  }

  lemma {:induction false} FirstExactly(pairs: seq<Pair>, i: nat, name: string, value: string)
    ensures FirstAt(pairs, i, name, value) ==> First(pairs, name) == Some(value)
    ensures First(pairs, name) == None <==> forall j :: 0 <= j < |pairs| ==> pairs[j].0 != name
  {
    if pairs != [] {
      FirstExactly(pairs[1..], if i == 0 then 0 else i - 1, name, value);
      assert forall j :: 1 <= j < |pairs| ==> pairs[j] == pairs[1..][j - 1];
    }
  }

  /**
   * Whatever a dispatcher is asked: the route its key names where the function holds that and it is not the hosted
   * one's; for any other key, and for none, the hosted route where the function holds it, at the path carried or the
   * request's own; and nothing where it does not.
   */
  lemma PickedExactly(held: set<string>, url: Url)
    ensures var handing, own := Dispatched(held, url), Own(url.pairs);
      var key, carried := First(url.pairs, "route"), First(url.pairs, "route-path");
      if key.Some? && key.value in held && key.value != "orpc" then
        handing == Handed(key.value, Url(PathSet("/api/" + CarriedOr(carried, key.value)), own))
      else if "orpc" in held then
        handing == Handed("orpc", Url(if carried.None? then url.path else PathSet("/api/" + carried.value), own))
      else handing == NotFound
  {
  }

  /** What is left of a query is every pair of neither name, in order. */
  lemma {:induction false} WithoutExactly(pairs: seq<Pair>, name: string)
    ensures forall pair :: pair in Without(pairs, name) <==> pair in pairs && pair.0 != name
    ensures |Without(pairs, name)| <= |pairs|
    ensures (forall pair :: pair in pairs ==> pair.0 != name) ==> Without(pairs, name) == pairs
  {
    if pairs != [] {
      WithoutExactly(pairs[1..], name);
      assert pairs == [pairs[0]] + pairs[1..];
    }
  }

  /** The member a rule's function picks is the rule's own choice: no path and no query of the caller's changes it. */
  lemma MemberFixed(
    held: set<string>, rule: Rewrite, d: Definition, route: string, query: Option<string>, path: string,
    caller: seq<Pair>
  )
    requires Takes(rule, path) && rule.dest == Dest(d, route, query) && CleanFile(d) && Plain(route)
    ensures var handing := Dispatched(held, Landed(path, caller, rule));
      if route in held then handing.Handed? && handing.member == route
      else if ORPC in held then handing.Handed? && handing.member == ORPC
      else handing == NotFound
  {
    var groups := Groups(Read(rule.src).value, path).value;
    var more := if query.None? then [] else Pairs(Written(query.value, path, groups));
    LandedOn(path, caller, rule, d, route, query);
    DispatchedOn(held, "/" + PublicPath(d), route, more, caller);
  }

  /** What a pattern's template carries out of a path under `/api/` is all of the path that follows. */
  lemma TemplateCarries(rule: Rewrite, p: Pattern, path: string)
    requires Takes(rule, path) && Read(rule.src) == Some(Spelled(API) + p) && Dollarless(p) && GroupCount(p) <= 9
    ensures API <= path
    ensures Written(Template(p, 1), path, Groups(Read(rule.src).value, path).value) == path[|API|..]
  {
    AfterText(API, p, path);
    var tail := path[|API|..];
    var groups := Groups(p, tail).value;
    GroupsFit(p, tail);
    assert groups[0..] == groups;
    FitsCount(p, groups, tail);
    TemplateGivesBack(p, 1, groups, path, tail);
  }

  /** The query of a rule that carries the client's own path, as its pattern's template. */
  function CarriesOwn(p: Pattern): Option<string>
    requires GroupCount(p) <= 9
  {
    Some(PATH + "=" + Template(p, 1))
  }

  lemma CarriedWritten(rule: Rewrite, p: Pattern, path: string)
    requires Takes(rule, path) && Read(rule.src) == Some(Spelled(API) + p) && Dollarless(p) && GroupCount(p) <= 9
    ensures API <= path
    ensures Written(CarriesOwn(p).value, path, Groups(Read(rule.src).value, path).value) == PATH + "=" + path[|API|..]
  {
    TemplateCarries(rule, p, path);
    WrittenPlain(PATH + "=", Template(p, 1), path, Groups(Read(rule.src).value, path).value);
  }

  /** Whether what follows `/api/` in a path comes back out of a query as it was written into it. */
  predicate Carriable(path: string)
    requires API <= path
  {
    '&' !in path && Kept(path[|API|..])
  }

  /** What is read back of a path carried in a query. */
  function ReadBack(tail: string): string {
    Decoded(tail[..Cutting.FirstCut(tail, '&')])
  }

  /** What follows its first `&`, which is read as pairs of its own. */
  function Spilt(tail: string): string {
    var i := Cutting.FirstCut(tail, '&');
    if i == |tail| then "" else tail[i + 1..]
  }

  lemma CarriedRead(name: string, tail: string)
    requires ParameterName(name)
    ensures Pairs(name + "=" + tail) == [(name, ReadBack(tail))] + Pairs(Spilt(tail))
    ensures '&' !in tail ==> Pairs(Spilt(tail)) == []
  {
    var i := Cutting.FirstCut(tail, '&');
    if i < |tail| {
      assert tail == tail[..i] + "&" + tail[i + 1..];
      SpiltPairs(name, tail[..i], tail[i + 1..]);
      assert tail[i] == '&';
    } else {
      assert tail[..i] == tail;
      CarriedPairs(name, tail);
      NoPairs();
    }
  }

  /** A text behind `/api/` comes back as it was exactly where it is whole, kept, and free of dot segments. */
  lemma ReadBackExactly(tail: string)
    requires Held(tail)
    ensures ApiPath(ReadBack(tail)) == API + tail <==> '&' !in tail && Kept(tail) && Dotless(Segments(API + tail))
  {
    var i := Cutting.FirstCut(tail, '&');
    ApiHeld();
    if i < |tail| {
      HeldStart(tail, i);
      CutApart(tail[..i], tail[i + 1..], tail);
      CutNeverSet(API, tail[..i], tail[i + 1..]);
    } else {
      assert tail[..i] == tail;
      SetBackExactly(API, tail);
    }
  }

  lemma HeldStart(text: string, n: nat)
    requires Held(text) && n <= |text|
    ensures Held(text[..n])
  {
    forall i | 0 <= i < n ensures Spelt(text[..n][i]) == [text[..n][i]] {
      assert text[..n][i] == text[i];
    }
  }

  lemma CutApart(head: string, rest: string, tail: string)
    requires |tail| > |head| && tail[|head|] == '&' && head == tail[..|head|] && rest == tail[|head| + 1..]
    ensures tail == head + "&" + rest && '&' in tail
  {
  }

  lemma PathReadBack(path: string)
    requires API <= path && UrlPath(path)
    ensures ApiPath(ReadBack(path[|API|..])) == path <==> Carriable(path)
    ensures Carriable(path) ==> '&' !in path[|API|..]
  {
    var tail := path[|API|..];
    assert path == API + tail;
    HeldConcat(API, tail);
    ReadBackExactly(tail);
    AmpersandIn(API, tail);
  }

  lemma AmpersandIn(start: string, tail: string)
    requires '&' !in start
    ensures '&' in start + tail <==> '&' in tail
  {
  }

  lemma CarriedLanded(rule: Rewrite, p: Pattern, d: Definition, route: string, path: string, caller: seq<Pair>)
    requires Takes(rule, path) && Read(rule.src) == Some(Spelled(API) + p) && Dollarless(p) && GroupCount(p) <= 9
    requires rule.dest == Dest(d, route, CarriesOwn(p)) && CleanFile(d) && Plain(route)
    ensures API <= path
    ensures Landed(path, caller, rule)
      == Url("/" + PublicPath(d), [(ROUTE, route)] + Pairs(PATH + "=" + path[|API|..]) + caller)
  {
    CarriedWritten(rule, p, path);
    LandedOn(path, caller, rule, d, route, CarriesOwn(p));
  }

  lemma CarriedDispatched(held: set<string>, file: string, route: string, tail: string, caller: seq<Pair>)
    requires route in held
    ensures Dispatched(held, Url(file, [(ROUTE, route)] + Pairs(PATH + "=" + tail) + caller))
      == Handed(route, Url(ApiPath(ReadBack(tail)), Own(Pairs(Spilt(tail))) + Own(caller)))
    ensures '&' !in tail ==> Own(Pairs(Spilt(tail))) + Own(caller) == Own(caller)
  {
    var more := Pairs(PATH + "=" + tail);
    DispatchedOn(held, file, route, more, caller);
    PathName();
    CarriedRead(PATH, tail);
    PathFirst(ReadBack(tail), Pairs(Spilt(tail)));
    FirstConcat(more, caller, PATH);
  }

  lemma PathFirst(value: string, rest: seq<Pair>)
    ensures First([(PATH, value)] + rest, PATH) == Some(value) && Own([(PATH, value)] + rest) == Own(rest)
  {
    var pairs := [(PATH, value)] + rest;
    assert pairs[1..] == rest && ROUTE != PATH;
    assert Without(pairs, ROUTE) == [(PATH, value)] + Without(rest, ROUTE);
    assert Without(pairs, ROUTE)[1..] == Without(rest, ROUTE);
    assert [] + Own(rest) == Own(rest);
  }

  /**
   * Dispatching undoes a rule that carries the client's path: the route is handed that very path exactly where it holds
   * no `&`, no `+`, and no escape but one the path's setter writes back; and with it the caller's own pairs in order.
   */
  lemma CarryingUndone(
    held: set<string>, rule: Rewrite, p: Pattern, d: Definition, route: string, path: string, caller: seq<Pair>
  )
    requires Takes(rule, path) && UrlPath(path)
    requires Read(rule.src) == Some(Spelled(API) + p) && Dollarless(p) && GroupCount(p) <= 9
    requires rule.dest == Dest(d, route, CarriesOwn(p)) && CleanFile(d) && Plain(route) && route in held
    ensures API <= path
    ensures var handing := Dispatched(held, Landed(path, caller, rule));
      && handing.Handed? && handing.member == route
      && handing.url.path == ApiPath(ReadBack(path[|API|..]))
      && (handing.url.path == path <==> Carriable(path))
      && handing.url.pairs == Own(Pairs(Spilt(path[|API|..]))) + Own(caller)
      && (Carriable(path) ==> handing.url.pairs == Own(caller))
  {
    CarriedLanded(rule, p, d, route, path, caller);
    CarriedDispatched(held, "/" + PublicPath(d), route, path[|API|..], caller);
    PathReadBack(path);
  }

  // ---- under /api/ ----

  /** Whether a value's segments, acted on one by one, leave a path set to `/api/` and the value under `/api/`. */
  predicate StaysUnderApi(value: string) {
    StaysUnder("api", Cutting.Split(Spelling(value), '/'), 1, true)
  }

  lemma UnderApi(value: string)
    ensures API <= ApiPath(value) <==> StaysUnderApi(value)
  {
    ApiSegment();
    UnderExactly("api", value);
  }

  lemma ApiSegment()
    ensures API == "/" + "api" + "/"
    ensures Held("api") && '/' !in "api" && !DotSegment("api")
  {
    assert Spelt('a') == "a" && Spelt('p') == "p" && Spelt('i') == "i";
    var name := "api";
    if DotSegment(name) {
      DotSegmentSpelt(name);
      assert false;
    }
  }

  lemma ApiSpelt(value: string)
    ensures ApiPath(value) == PathSet("/" + "api" + "/" + value)
  {
    ApiSegment();
  }

  /** A value with `./` before it names the same path. */
  lemma ApiDot(value: string)
    ensures ApiPath("." + "/" + value) == ApiPath(value)
  {
    ApiSegment();
    ApiSpelt(value);
    ApiSpelt("." + "/" + value);
    DotBehind("api", value);
  }

  /** With `../` before it, it names one at the top. */
  lemma ApiDoubleDot(value: string)
    ensures ApiPath(".." + "/" + value) == PathSet("/" + value)
  {
    ApiSegment();
    ApiSpelt(".." + "/" + value);
    DoubleDotBehind("api", value);
  }

  lemma ApiTwoDoubleDots(next: string, value: string)
    requires Held(next) && '/' !in next && !DotSegment(next)
    ensures ApiPath(next + "/" + (".." + "/" + (".." + "/" + value))) == PathSet("/" + value)
  {
    ApiSegment();
    ApiSpelt(next + "/" + (".." + "/" + (".." + "/" + value)));
    TwoDoubleDotsBehind("api", next, value);
  }

  /** A route is handed a path under `/api/` exactly where the path carried, or its own, stays so. */
  lemma HandedUnderApi(held: set<string>, url: Url)
    requires Dispatched(held, url).Handed?
    ensures var handing, carried := Dispatched(held, url), First(url.pairs, PATH);
      API <= handing.url.path
      <==> if handing.member == ORPC && carried.None? then API <= url.path
           else StaysUnderApi(CarriedOr(carried, handing.member))
  {
    UnderApi(CarriedOr(First(url.pairs, PATH), Dispatched(held, url).member));
  }

  // ---- the whole way ----

  /** The dispatcher a landed path is a function's file for. */
  function DispatcherAt(definitions: seq<Definition>, path: string): Option<Definition> {
    if definitions == [] then None
    else if definitions[0].dispatches && "/" + PublicPath(definitions[0]) == path then Some(definitions[0])
    else DispatcherAt(definitions[1..], path)
  }

  /** A client's request landed by a table, and dispatched by the function it landed on. */
  function Served(definitions: seq<Definition>, table: seq<Rewrite>, path: string, caller: seq<Pair>): Option<Handing> {
    var rule := LandingRule(path, table);
    if rule.None? || !Takes(rule.value, path) then None
    else
      var url := Landed(path, caller, rule.value);
      var d := DispatcherAt(definitions, url.path);
      if d.None? then None else Some(Dispatched(set route <- d.value.routes :: route, url))
  }

  /** Every function has a file of its own. */
  predicate OwnFiles(definitions: seq<Definition>) {
    && (forall d :: d in definitions ==> CleanFile(d))
    && (forall d, e :: d in definitions && e in definitions && d.file == e.file ==> d == e)
  }

  /** A function's path spells its file. */
  lemma FileOf(d: Definition)
    ensures var path := "/" + PublicPath(d); |path| == |d.file| + 8 && path[5..|path| - 3] == d.file
  {
    var start, end := "/api/", ".js";
    assert "/" + PublicPath(d) == start + d.file + end;
    assert |start| == 5 && |end| == 3;
    assert (start + d.file + end)[5..5 + |d.file|] == d.file;
  }

  lemma {:induction false} DispatcherFound(definitions: seq<Definition>, d: Definition)
    requires d in definitions && d.dispatches && OwnFiles(definitions)
    ensures DispatcherAt(definitions, "/" + PublicPath(d)) == Some(d)
  {
    var first := definitions[0];
    assert definitions == [first] + definitions[1..];
    if first.dispatches && "/" + PublicPath(first) == "/" + PublicPath(d) {
      FileOf(first);
      FileOf(d);
    } else {
      DispatcherFound(definitions[1..], d);
    }
  }

  lemma ServedBy(
    definitions: seq<Definition>, table: seq<Rewrite>, path: string, caller: seq<Pair>, rule: Rewrite, d: Definition,
    route: string, query: Option<string>
  )
    requires LandingRule(path, table) == Some(rule) && rule.dest == Dest(d, route, query)
    requires d in definitions && d.dispatches && OwnFiles(definitions) && Plain(route)
    ensures Takes(rule, path)
    ensures Served(definitions, table, path, caller)
      == Some(Dispatched(set held <- d.routes :: held, Landed(path, caller, rule)))
  {
    LandedIn(path, table);
    LandedOn(path, caller, rule, d, route, query);
    DispatcherFound(definitions, d);
  }

  /**
   * A request reached a route: at what is read back of the client's path, which is that very path exactly where it can
   * be carried in a query, and then with the caller's own pairs; and under `/api/` exactly where what is read stays so.
   */
  predicate ReachedAs(served: Option<Handing>, member: string, path: string, caller: seq<Pair>)
    requires API <= path
  {
    var tail := path[|API|..];
    && served == Some(Handed(member, Url(ApiPath(ReadBack(tail)), Own(Pairs(Spilt(tail))) + Own(caller))))
    && (ApiPath(ReadBack(tail)) == path <==> Carriable(path))
    && (Carriable(path) ==> served.value.url.pairs == Own(caller))
    && (API <= ApiPath(ReadBack(tail)) <==> StaysUnderApi(ReadBack(tail)))
  }

  /** A rule that carries its own pattern's path, over the whole way. */
  lemma CarryServes(
    definitions: seq<Definition>, table: seq<Rewrite>, p: Pattern, d: Definition, route: string, path: string,
    caller: seq<Pair>
  )
    requires LandingRule(path, table).Some? && GroupCount(p) <= 9
    requires var rule := LandingRule(path, table).value;
      && Read(rule.src) == Some(Spelled(API) + p) && Dollarless(p) && rule.dest == Dest(d, route, CarriesOwn(p))
    requires d in definitions && d.dispatches && route in d.routes && OwnFiles(definitions) && Plain(route)
    requires UrlPath(path)
    ensures API <= path && ReachedAs(Served(definitions, table, path, caller), route, path, caller)
  {
    var rule := LandingRule(path, table).value;
    ServedBy(definitions, table, path, caller, rule, d, route, CarriesOwn(p));
    CarryingUndone(set held <- d.routes :: held, rule, p, d, route, path, caller);
    UnderApi(ReadBack(path[|API|..]));
  }

  /** A path nothing else takes reaches the hosted route, at that path exactly where it can be carried. */
  lemma FallbackServes(s: Sources, path: string, caller: seq<Pair>)
    requires Generated(s).Ok? && OwnFiles(s.definitions) && FunctionOf(s.definitions, ORPC).value.dispatches
    requires MeaningOf(s, path) == ByFallback && UrlPath(path)
    ensures ReachedAs(Served(s.definitions, Generated(s).value, path, caller), ORPC, path, caller)
  {
    var d := FunctionOf(s.definitions, ORPC).value;
    TableLands(s, path);
    HolderListed(s.definitions, ORPC);
    var p := FallbackCarries(d);
    OrpcPlain();
    CarryServes(s.definitions, Generated(s).value, p, d, ORPC, path, caller);
  }

  /** The fallback is such a rule. */
  lemma FallbackCarries(d: Definition) returns (p: Pattern)
    ensures Dollarless(p) && GroupCount(p) <= 9 && Read(FALLBACK) == Some(Spelled(API) + p)
    ensures Fallback(d).dest == Dest(d, ORPC, CarriesOwn(p))
  {
    p := [Rest];
    assert p[1..] == [];
    assert Template(p, 1) == "$1" + Template([], 2);
    FallbackTakes(d, API);
  }

  /** A literal key's path reaches the key's own route, there exactly where the caller's query carries no other path. */
  lemma KeyServes(s: Sources, path: string, caller: seq<Pair>)
    requires Generated(s).Ok? && OwnFiles(s.definitions)
    requires MeaningOf(s, path).ByKey?
    ensures var served, route, carried :=
        Served(s.definitions, Generated(s).value, path, caller), path[|API|..], First(caller, PATH);
      && API <= path && served.Some? && served.value.Handed? && served.value.member == route
      && served.value.url.path == (if carried.None? then path else ApiPath(carried.value))
      && (served.value.url.path == path <==> carried.None? || ApiPath(carried.value) == path)
      && served.value.url.pairs == Own(caller)
  {
    var d, route := MeaningOf(s, path).holder, path[|API|..];
    var rule := Rewrite(path, Dest(d, route, None));
    TableLands(s, path);
    HolderHolds(s.definitions, route);
    KeyPlain(s, route);
    ServedBy(s.definitions, Generated(s).value, path, caller, rule, d, route, None);
    RouteDispatched(set held <- d.routes :: held, path, caller, rule, d, route);
    KeyPath(path, route, First(caller, PATH));
  }

  /** A key's own path is one it is handed unchanged. */
  lemma KeySet(s: Sources, path: string)
    requires Generated(s).Ok? && MeaningOf(s, path).ByKey?
    ensures API <= path && ApiPath(path[|API|..]) == path
  {
    var route := path[|API|..];
    KeyPlain(s, route);
    LiteralSet(route);
    assert path == API + route;
  }

  /** So `./` and the key, carried in the query, leaves a key's path where it was, and `../` takes it to the top. */
  lemma DotsServe(s: Sources, path: string, caller: seq<Pair>, value: string)
    requires Generated(s).Ok? && OwnFiles(s.definitions) && MeaningOf(s, path).ByKey?
    ensures API <= path
    ensures var served, carried := Served(s.definitions, Generated(s).value, path, caller), First(caller, PATH);
      && served.Some? && served.value.Handed?
      && (carried == Some("." + "/" + path[|API|..]) ==> served.value.url.path == path)
      && (carried == Some(".." + "/" + value) ==> served.value.url.path == PathSet("/" + value))
  {
    KeyServes(s, path, caller);
    KeySet(s, path);
    ApiDot(path[|API|..]);
    ApiDoubleDot(value);
  }

  lemma KeyPath(path: string, route: string, carried: Option<string>)
    requires API <= path && route == path[|API|..] && LiteralKey(route)
    ensures ApiPath(CarriedOr(carried, route)) == if carried.None? then path else ApiPath(carried.value)
  {
    LiteralSet(route);
    assert path == API + route;
  }

  /** A rule that names a route alone, dispatched: the route's own path, unless the caller's query carries one. */
  lemma RouteDispatched(
    held: set<string>, path: string, caller: seq<Pair>, rule: Rewrite, d: Definition, route: string
  )
    requires Takes(rule, path) && rule.dest == Dest(d, route, None) && CleanFile(d) && Plain(route)
    requires route in held && route != ORPC
    ensures var carried := First(caller, PATH);
      Dispatched(held, Landed(path, caller, rule))
      == Handed(route, Url(ApiPath(CarriedOr(carried, route)), Own(caller)))
  {
    LandedOn(path, caller, rule, d, route, None);
    KeyDispatched(held, "/" + PublicPath(d), route, caller);
  }

  lemma KeyDispatched(held: set<string>, file: string, route: string, caller: seq<Pair>)
    requires route in held && route != ORPC
    ensures var carried := First(caller, PATH);
      Dispatched(held, Url(file, [(ROUTE, route)] + [] + caller))
      == Handed(route, Url(ApiPath(CarriedOr(carried, route)), Own(caller)))
  {
    assert [(ROUTE, route)] + [] + caller == [(ROUTE, route)] + caller;
    KeyFirst(ROUTE, PATH, route, caller);
  }

  lemma LiteralSet(route: string)
    requires LiteralKey(route)
    ensures ApiPath(route) == API + route
  {
    forall i | 0 <= i < |route| ensures Spelt(route[i]) == [route[i]] {
      LiteralSpelt(route[i]);
    }
    ApiHeld();
    HeldConcat(API, route);
    LiteralDotless(API, route);
    SetKeepsExactly(API + route);
  }

  lemma LiteralDotless(start: string, route: string)
    requires "/" <= start && '.' !in start && '%' !in start && LiteralKey(route)
    ensures "/" <= start + route && Dotless(Segments(start + route))
  {
    assert '.' !in route && '%' !in route;
    PlainDotless((start + route)[1..]);
  }

  lemma LiteralSpelt(c: char)
    requires 'a' <= c <= 'z' || '0' <= c <= '9' || c == '/' || c == '-'
    ensures Spelt(c) == [c]
  {
  }

  lemma {:induction false} HolderHolds(definitions: seq<Definition>, route: string)
    requires FirstHolder(definitions, route).Some?
    ensures FirstHolder(definitions, route).value in definitions
    ensures Dispatching(FirstHolder(definitions, route).value, route)
  {
    if !Dispatching(definitions[0], route) {
      HolderHolds(definitions[1..], route);
    }
  }

  /** A key with a rule of its own is literal, and never the hosted route's. */
  lemma KeyPlain(s: Sources, route: string)
    requires Generated(s).Ok? && route !in Rewritten(s.segments) && FirstHolder(s.definitions, route).Some?
    ensures LiteralKey(route) && Plain(route) && route != ORPC
  {
    KeysLiteral(s.definitions, Rewritten(s.segments), route);
  }

  lemma {:induction false} KeysLiteral(definitions: seq<Definition>, rewritten: set<string>, route: string)
    requires LiteralRules(definitions, rewritten).Ok? && route !in rewritten && FirstHolder(definitions, route).Some?
    ensures LiteralKey(route)
  {
    if Dispatching(definitions[0], route) {
      RouteLiteral(definitions[0], definitions[0].routes, rewritten, route);
    } else {
      KeysLiteral(definitions[1..], rewritten, route);
    }
  }

  lemma {:induction false} RouteLiteral(d: Definition, routes: seq<string>, rewritten: set<string>, route: string)
    requires RouteRules(d, routes, rewritten).Ok? && route !in rewritten && route in routes
    ensures LiteralKey(route)
  {
    if route != routes[0] {
      RouteLiteral(d, routes[1..], rewritten, route);
    }
  }

  /** A segment rewrite that carries its own pattern's path is undone as the fallback is. */
  lemma SegmentServes(s: Sources, p: Pattern, path: string, caller: seq<Pair>)
    requires Generated(s).Ok? && OwnFiles(s.definitions) && UrlPath(path)
    requires MeaningOf(s, path).BySegment?
    requires var segment := MeaningOf(s, path).segment;
      && Read(segment.src) == Some(Spelled(API) + p) && Dollarless(p) && GroupCount(p) <= 9
      && segment.query == CarriesOwn(p).value && Plain(segment.route)
      && FunctionOf(s.definitions, segment.route).Some? && FunctionOf(s.definitions, segment.route).value.dispatches
    ensures API <= path
    ensures var member := MeaningOf(s, path).segment.route;
      ReachedAs(Served(s.definitions, Generated(s).value, path, caller), member, path, caller)
  {
    var segment := MeaningOf(s, path).segment;
    var d := FunctionOf(s.definitions, segment.route).value;
    TableLands(s, path);
    HolderListed(s.definitions, segment.route);
    CarryServes(s.definitions, Generated(s).value, p, d, segment.route, path, caller);
  }

  /** A function's own path lands on itself, the caller's query untouched. */
  lemma OwnPathKept(s: Sources, path: string, caller: seq<Pair>)
    requires Generated(s).Ok? && MeaningOf(s, path) == ByName && UrlPath(path) && '$' !in path
    ensures var rule := LandingRule(path, Generated(s).value);
      rule.Some? && Takes(rule.value, path) && Landed(path, caller, rule.value) == Url(path, caller)
  {
    TableLands(s, path);
    ExactMatches(path, path);
    SpelledMatches(path, path);
    WrittenPlain(path, "", path, []);
    assert path + "" == path;
    HeldUnasked(path);
    SetKeepsExactly(path);
    Cutting.NoCut(path, '?');
    assert path[..|path|] == path && [] + caller == caller;
  }
}
