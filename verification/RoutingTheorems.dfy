/** What the generated table promises as a whole: who is named in it, by what, and who is not. */
module RoutingTheorems {
  import opened Basics
  import opened Text
  import opened Patterns
  import opened Rewrites
  import opened Landing
  import opened Functions
  import Cutting

  /** A rule lands on a function for a route. */
  ghost predicate Names(rule: Rewrite, holder: Definition, route: string) {
    exists query {:trigger Dest(holder, route, query)} :: rule.dest == Dest(holder, route, query)
  }

  ghost predicate Named(table: seq<Rewrite>, holder: Definition, route: string) {
    exists i :: 0 <= i < |table| && Names(table[i], holder, route)
  }

  lemma NamedAmong(table: seq<Rewrite>, rule: Rewrite, holder: Definition, route: string, query: Option<string>)
    requires rule in table && rule.dest == Dest(holder, route, query)
    ensures Named(table, holder, route)
  {
    assert Names(rule, holder, route);
  }

  lemma {:induction false} SegmentRuleIn(
    definitions: seq<Definition>, segments: seq<SegmentRewrite>, segment: SegmentRewrite
  )
    requires SegmentRules(definitions, segments).Ok? && segment in segments
    ensures FunctionOf(definitions, segment.route).Some?
    ensures Rewrite(segment.src, Dest(FunctionOf(definitions, segment.route).value, segment.route, Some(segment.query)))
      in SegmentRules(definitions, segments).value
  {
    if segment != segments[0] {
      SegmentRuleIn(definitions, segments[1..], segment);
    }
  }

  lemma {:induction false} RouteRuleIn(
    definition: Definition, routes: seq<string>, rewritten: set<string>, route: string
  )
    requires RouteRules(definition, routes, rewritten).Ok? && route in routes && route !in rewritten
    ensures Rewrite(API + route, Dest(definition, route, None)) in RouteRules(definition, routes, rewritten).value
  {
    if route != routes[0] {
      RouteRuleIn(definition, routes[1..], rewritten, route);
    }
  }

  lemma {:induction false} LiteralRuleIn(
    definitions: seq<Definition>, rewritten: set<string>, definition: Definition, route: string
  )
    requires LiteralRules(definitions, rewritten).Ok?
    requires definition in definitions && Dispatching(definition, route) && route !in rewritten
    ensures Rewrite(API + route, Dest(definition, route, None)) in LiteralRules(definitions, rewritten).value
  {
    if definition == definitions[0] {
      RouteRuleIn(definition, definition.routes, rewritten, route);
    } else {
      LiteralRuleIn(definitions[1..], rewritten, definition, route);
    }
  }

  lemma {:induction false} PublicRuleIn(
    definitions: seq<Definition>, publics: seq<PublicRewrite>, public: PublicRewrite
  )
    requires PublicRules(definitions, publics).Ok? && public in publics
    ensures exists rule :: rule in PublicRules(definitions, publics).value && PublicMakes(definitions, public, rule)
  {
    if public == publics[0] {
      assert PublicMakes(definitions, public, PublicRule(definitions, public).value[0]);
    } else {
      PublicRuleIn(definitions, publics[1..], public);
    }
  }

  /** What a public path, a segment rewrite or the fallback names is held by a function, and a rule lands there. */
  lemma OutrightNamed(s: Sources, route: string)
    requires Compiled(s).Ok? && NamedOutright(s, route)
    ensures FunctionOf(s.definitions, route).Some?
    ensures Named(Compiled(s).value, FunctionOf(s.definitions, route).value, route)
  {
    var table := Compiled(s).value;
    if route == ORPC {
      NamedAmong(table, Fallback(FunctionOf(s.definitions, ORPC).value), FunctionOf(s.definitions, ORPC).value, ORPC,
                 Some("route-path=$1"));
    } else if public :| public in s.publics && public.route == route {
      PublicRuleIn(s.definitions, s.publics, public);
      var rule :| rule in PublicRules(s.definitions, s.publics).value && PublicMakes(s.definitions, public, rule);
      NamedAmong(table, rule, FunctionOf(s.definitions, route).value, route, public.query);
    } else {
      var segment :| segment in s.segments && segment.route == route;
      SegmentRuleIn(s.definitions, s.segments, segment);
      var d := FunctionOf(s.definitions, route).value;
      NamedAmong(table, Rewrite(segment.src, Dest(d, route, Some(segment.query))), d, route, Some(segment.query));
    }
  }

  /** No route a dispatcher holds is left without a rule that lands on it. */
  lemma RouteNamed(s: Sources, d: Definition, route: string)
    requires Compiled(s).Ok?
    requires d in s.definitions && Dispatching(d, route) && FunctionOf(s.definitions, route) == Some(d)
    ensures Named(Compiled(s).value, d, route)
  {
    if route in Rewritten(s.segments) {
      OutrightNamed(s, route);
    } else {
      LiteralRuleIn(s.definitions, Rewritten(s.segments), d, route);
      NamedAmong(Compiled(s).value, Rewrite(API + route, Dest(d, route, None)), d, route, None);
    }
  }

  /** Over the layout's own functions: whatever a dispatcher holds, the table names. */
  lemma DispatchedNamed(
    keys: seq<string>, layout: Layout, upTo: (string, string) -> bool, s: Sources, d: Definition, route: string
  )
    requires FunctionDefinitions(keys, layout, upTo) == Ok(s.definitions) && Compiled(s).Ok?
    requires NoRepeat(multiset(keys)) && NoRepeat(multiset(Claimed(layout))) && ORPC !in Claimed(layout)
    requires d in s.definitions && Dispatching(d, route)
    ensures FunctionOf(s.definitions, route) == Some(d) && Named(Compiled(s).value, d, route)
  {
    Partitioned(keys, layout, upTo);
    HolderFound(s.definitions, d, route);
    RouteNamed(s, d, route);
  }

  /** Every route file that no function claims is grouped with the rest, and the table names it. */
  lemma EveryKeyNamed(keys: seq<string>, layout: Layout, upTo: (string, string) -> bool, s: Sources, key: string)
    requires FunctionDefinitions(keys, layout, upTo) == Ok(s.definitions) && Compiled(s).Ok?
    requires NoRepeat(multiset(keys)) && NoRepeat(multiset(Claimed(layout))) && ORPC !in Claimed(layout)
    requires key in keys && key !in Claimed(layout)
    ensures exists d :: d in s.definitions && Dispatching(d, key) && Named(Compiled(s).value, d, key)
  {
    var d := Definition(DEFAULT_FILE, Unclaimed(keys, Claimed(layout)) + [ORPC], true, None);
    SortingKeeps(Listed(keys, layout), upTo);
    assert Listed(keys, layout)[0] == d;
    assert d in multiset(s.definitions);
    UnclaimedCounts(keys, Claimed(layout), key);
    assert key in multiset(keys);
    assert key in multiset(Unclaimed(keys, Claimed(layout)));
    DispatchedNamed(keys, layout, upTo, s, d, key);
  }

  lemma LaidOut(keys: seq<string>, layout: Layout, upTo: (string, string) -> bool, d: Definition)
    requires FunctionDefinitions(keys, layout, upTo).Ok?
    ensures d in FunctionDefinitions(keys, layout, upTo).value <==> d in Listed(keys, layout)
  {
    SortingKeeps(Listed(keys, layout), upTo);
    assert d in multiset(FunctionDefinitions(keys, layout, upTo).value) <==> d in multiset(Listed(keys, layout));
  }

  lemma {:induction false} GroupedIn(groups: seq<Group>, group: Group)
    requires group in groups
    ensures Definition(group.file, group.routes, true, None) in Grouped(groups)
  {
    if groups[0] != group {
      GroupedIn(groups[1..], group);
    }
  }

  lemma {:induction false} AloneIn(standalone: seq<string>, route: string)
    requires route in standalone
    ensures Definition(route, [route], false, None) in Alone(standalone)
  {
    if standalone[0] != route {
      AloneIn(standalone[1..], route);
    }
  }

  /** Each group is one function that dispatches, so the table names each of its routes there, and nowhere else. */
  lemma GroupNamed(
    keys: seq<string>, layout: Layout, upTo: (string, string) -> bool, s: Sources, group: Group, route: string
  )
    requires FunctionDefinitions(keys, layout, upTo) == Ok(s.definitions) && Compiled(s).Ok?
    requires NoRepeat(multiset(keys)) && NoRepeat(multiset(Claimed(layout))) && ORPC !in Claimed(layout)
    requires group in layout.groups && route in group.routes
    ensures var d := FunctionOf(s.definitions, route);
      && d.Some? && d.value.file == group.file && d.value.routes == group.routes && d.value.dispatches
      && Named(Compiled(s).value, d.value, route)
  {
    var d := Definition(group.file, group.routes, true, None);
    GroupedIn(layout.groups, group);
    assert d in Listed(keys, layout);
    LaidOut(keys, layout, upTo, d);
    DispatchedNamed(keys, layout, upTo, s, d, route);
  }

  /** The hosted route is in the default function, which dispatches to it; consumers stand as they are declared. */
  lemma HostedLaid(keys: seq<string>, layout: Layout, upTo: (string, string) -> bool)
    requires FunctionDefinitions(keys, layout, upTo).Ok?
    requires NoRepeat(multiset(keys)) && NoRepeat(multiset(Claimed(layout))) && ORPC !in Claimed(layout)
    ensures var definitions := FunctionDefinitions(keys, layout, upTo).value;
      var d := FunctionOf(definitions, ORPC);
      && d.Some? && d.value.file == "default" && d.value.dispatches
      && forall consumer :: consumer in layout.consumers ==> consumer in definitions
  {
    var d := Definition(DEFAULT_FILE, Unclaimed(keys, Claimed(layout)) + [ORPC], true, None);
    var definitions := FunctionDefinitions(keys, layout, upTo).value;
    assert Listed(keys, layout)[0] == d;
    LaidOut(keys, layout, upTo, d);
    assert d.routes[|d.routes| - 1] == ORPC;
    Partitioned(keys, layout, upTo);
    HolderFound(definitions, d, ORPC);
    forall consumer | consumer in layout.consumers ensures consumer in definitions {
      assert consumer in Listed(keys, layout);
      LaidOut(keys, layout, upTo, consumer);
    }
  }

  // ---- what is refused ----

  /** A key that is its own pattern: lower-case letters, digits, slashes and dashes. */
  predicate SpeltPlain(route: string) {
    route != "" && forall i :: 0 <= i < |route| ==> 'a' <= route[i] <= 'z' || Digit(route[i]) || route[i] in "/-"
  }

  lemma LiteralIsPlain(route: string)
    ensures LiteralKey(route) <==> SpeltPlain(route)
  {
  }

  /** Every route of a dispatcher is named outright, or can be its own pattern. */
  predicate Spellable(s: Sources) {
    forall d, route :: d in s.definitions && d.dispatches && route in d.routes ==>
      route in Rewritten(s.segments) || SpeltPlain(route)
  }

  lemma {:induction false} PublicsOk(definitions: seq<Definition>, publics: seq<PublicRewrite>)
    ensures PublicRules(definitions, publics).Ok?
      <==> forall public :: public in publics ==> public.route in RoutesOf(definitions)
  {
    if publics != [] {
      PublicsOk(definitions, publics[1..]);
      HolderListed(definitions, publics[0].route);
      assert publics == [publics[0]] + publics[1..];
    }
  }

  lemma {:induction false} SegmentsOk(definitions: seq<Definition>, segments: seq<SegmentRewrite>)
    ensures SegmentRules(definitions, segments).Ok?
      <==> forall segment :: segment in segments ==> segment.route in RoutesOf(definitions)
  {
    if segments != [] {
      SegmentsOk(definitions, segments[1..]);
      HolderListed(definitions, segments[0].route);
      assert segments == [segments[0]] + segments[1..];
    }
  }

  lemma {:induction false} RoutesOk(d: Definition, routes: seq<string>, rewritten: set<string>)
    ensures RouteRules(d, routes, rewritten).Ok?
      <==> forall route :: route in routes ==> route in rewritten || SpeltPlain(route)
  {
    if routes != [] {
      RoutesOk(d, routes[1..], rewritten);
      LiteralIsPlain(routes[0]);
      assert routes == [routes[0]] + routes[1..];
    }
  }

  lemma {:induction false} LiteralsOk(definitions: seq<Definition>, rewritten: set<string>)
    ensures LiteralRules(definitions, rewritten).Ok?
      <==> forall d, route :: d in definitions && d.dispatches && route in d.routes ==>
             route in rewritten || SpeltPlain(route)
  {
    if definitions != [] {
      var first := definitions[0];
      LiteralsOk(definitions[1..], rewritten);
      RoutesOk(first, first.routes, rewritten);
      assert definitions == [first] + definitions[1..];
    }
  }

  /**
   * The table is compiled exactly where some function holds the hosted route, every public path's and every segment
   * rewrite's route, and every other route of a dispatcher can be its own pattern.
   */
  lemma CompiledExactly(s: Sources)
    ensures Generated(s).Ok? <==>
      && ORPC in RoutesOf(s.definitions)
      && (forall public :: public in s.publics ==> public.route in RoutesOf(s.definitions))
      && (forall segment :: segment in s.segments ==> segment.route in RoutesOf(s.definitions))
      && Spellable(s)
  {
    HolderListed(s.definitions, ORPC);
    PublicsOk(s.definitions, s.publics);
    SegmentsOk(s.definitions, s.segments);
    LiteralsOk(s.definitions, Rewritten(s.segments));
  }

  // ---- functions answering by their own names ----

  /** A file's name as the layout writes one: no extension of its own, and no query. */
  predicate PlainName(file: string) {
    file != "" && file[|file| - 1] != '/' && '.' !in file && '?' !in file
  }

  /** A function's second path is its file's name without the extension. */
  lemma AliasOf(d: Definition)
    requires d.file != "" && d.file[|d.file| - 1] != '/'
    ensures AliasPath(PublicPath(d)) == "api/" + d.file
  {
    var path, n := PublicPath(d), |d.file| + 4;
    assert |path| == n + 3 && path[n] == '.' && path[n + 1] == 'j' && path[n + 2] == 's';
    assert path[n - 1] == d.file[|d.file| - 1];
    assert ExtensionStart(path, n + 3) == ExtensionStart(path, n + 2) == ExtensionStart(path, n + 1) == n;
    assert path[..n] == "api/" + d.file;
  }

  lemma {:induction false} OwnNamesHold(definitions: seq<Definition>, name: string)
    ensures name in OwnNames(definitions) <==>
      exists d :: d in definitions && AnswersByName(d) && PublicPath(d) == name
  {
    if definitions != [] {
      OwnNamesHold(definitions[1..], name);
      assert definitions == [definitions[0]] + definitions[1..];
    }
  }

  lemma {:induction false} BothPathsHold(names: seq<string>, path: string)
    ensures path in BothPaths(names) <==>
      exists name :: name in names && (path == "/" + name || path == "/" + AliasPath(name))
  {
    if names != [] {
      BothPathsHold(names[1..], path);
      assert names == [names[0]] + names[1..];
      assert BothPaths(names) == ["/" + AliasPath(names[0]), "/" + names[0]] + BothPaths(names[1..]);
    }
  }

  lemma {:induction false} OwnRulesHold(paths: seq<string>, rule: Rewrite)
    ensures rule in OwnRules(paths) <==> rule.dest in paths && rule.src == ExactPattern(rule.dest)
  {
    if paths != [] {
      OwnRulesHold(paths[1..], rule);
    }
  }

  /** The rules that rewrite a path onto itself are exactly those of the functions' own paths, both of each. */
  lemma OwnRulesAre(s: Sources, rule: Rewrite)
    ensures rule in OwnRules(PassThroughPaths(s.definitions, s.handWritten)) <==>
      rule.src == ExactPattern(rule.dest)
      && exists name :: (name in OwnNames(s.definitions) || name in s.handWritten)
                        && (rule.dest == "/" + name || rule.dest == "/" + AliasPath(name))
  {
    var names := OwnNames(s.definitions) + s.handWritten;
    OwnRulesHold(PassThroughPaths(s.definitions, s.handWritten), rule);
    SortedHolds(BothPaths(names), rule.dest);
    BothPathsHold(names, rule.dest);
    assert forall name :: name in names <==> name in OwnNames(s.definitions) || name in s.handWritten;
  }

  lemma OwnInTable(s: Sources, name: string)
    requires Compiled(s).Ok? && (name in OwnNames(s.definitions) || name in s.handWritten)
    ensures Rewrite(ExactPattern("/" + name), "/" + name) in Compiled(s).value
    ensures Rewrite(ExactPattern("/" + AliasPath(name)), "/" + AliasPath(name)) in Compiled(s).value
  {
    OwnRulesAre(s, Rewrite(ExactPattern("/" + name), "/" + name));
    OwnRulesAre(s, Rewrite(ExactPattern("/" + AliasPath(name)), "/" + AliasPath(name)));
  }

  /** Each function that answers by its own name has both its paths in the table, each onto itself. */
  lemma StandaloneNamed(s: Sources, d: Definition)
    requires Compiled(s).Ok?
    requires d in s.definitions && AnswersByName(d) && d.file != "" && d.file[|d.file| - 1] != '/'
    ensures Rewrite(ExactPattern(API + d.file), API + d.file) in Compiled(s).value
    ensures Rewrite(ExactPattern(API + d.file + ".js"), API + d.file + ".js") in Compiled(s).value
  {
    OwnNamesHold(s.definitions, PublicPath(d));
    OwnInTable(s, PublicPath(d));
    AliasOf(d);
    OwnTexts(d);
  }

  /** A name's second path is the name up to its last dot, where a character of the same segment stands before it. */
  lemma AliasCuts(front: string, extension: string)
    requires front != "" && front[|front| - 1] != '/' && '.' !in extension && '/' !in extension
    ensures AliasPath(front + "." + extension) == front
  {
    var path := front + "." + extension;
    DotBehind(path, |path|, |front|);
    assert path[|front|] == '.' && path[|front| - 1] == front[|front| - 1];
    assert path[..|front|] == front;
  }

  /** And the name itself where no dot follows its last slash, or only one that starts its last segment. */
  lemma AliasKeeps(front: string, last: string)
    requires (front == "" || front[|front| - 1] == '/') && '/' !in last
    requires '.' !in last || (last[0] == '.' && '.' !in last[1..])
    ensures AliasPath(front + last) == front + last
  {
    var path, n := front + last, |front|;
    assert forall i :: n <= i < |path| ==> path[i] == last[i - n];
    if '.' in last {
      assert forall i :: n < i < |path| ==> path[i] == last[1..][i - n - 1];
      DotBehind(path, |path|, n);
    } else {
      NoDotBehind(path, |path|, n);
    }
    assert path[..|path|] == path;
  }

  lemma {:induction false} DotBehind(path: string, n: nat, dot: nat)
    requires dot < n <= |path| && path[dot] == '.'
    requires forall i :: dot < i < n ==> path[i] != '.' && path[i] != '/'
    ensures ExtensionStart(path, n) == ExtensionStart(path, dot + 1)
  {
    if n > dot + 1 {
      DotBehind(path, n - 1, dot);
    }
  }

  lemma {:induction false} NoDotBehind(path: string, n: nat, start: nat)
    requires start <= n <= |path| && (start == 0 || path[start - 1] == '/')
    requires forall i :: start <= i < n ==> path[i] != '.' && path[i] != '/'
    ensures ExtensionStart(path, n) == |path|
  {
    if n > start {
      NoDotBehind(path, n - 1, start);
    }
  }

  /** So has each route that stands alone, in a function of its own that is named as the route is. */
  lemma AloneNamed(keys: seq<string>, layout: Layout, upTo: (string, string) -> bool, s: Sources, route: string)
    returns (d: Definition)
    requires FunctionDefinitions(keys, layout, upTo) == Ok(s.definitions) && Compiled(s).Ok?
    requires route in layout.standalone && route != "" && route[|route| - 1] != '/'
    ensures d in s.definitions && d.file == route && d.routes == [route] && AnswersByName(d)
    ensures Rewrite(ExactPattern(API + d.file), API + d.file) in Compiled(s).value
    ensures Rewrite(ExactPattern(API + d.file + ".js"), API + d.file + ".js") in Compiled(s).value
  {
    d := AloneLaid(keys, layout, upTo, route);
    StandaloneNamed(s, d);
  }

  lemma AloneLaid(keys: seq<string>, layout: Layout, upTo: (string, string) -> bool, route: string)
    returns (d: Definition)
    requires FunctionDefinitions(keys, layout, upTo).Ok? && route in layout.standalone
    ensures d.file == route && d.routes == [route] && AnswersByName(d)
    ensures d in FunctionDefinitions(keys, layout, upTo).value
  {
    d := Definition(route, [route], false, None);
    AloneIn(layout.standalone, route);
    assert d in Listed(keys, layout);
    LaidOut(keys, layout, upTo, d);
  }

  lemma OwnTexts(d: Definition)
    ensures API + d.file == "/" + ("api/" + d.file)
    ensures API + d.file + ".js" == "/" + PublicPath(d)
  {
  }

  // ---- the fallback ----

  lemma ExactNotFallback(path: string)
    ensures ExactPattern(path) != FALLBACK
  {
    var asked := if path == API then API + "x" else API;
    ExactMatches(path, asked);
    FallbackTakes(Definition("", [], true, None), asked);
  }

  predicate PublicMakes(definitions: seq<Definition>, public: PublicRewrite, rule: Rewrite) {
    var to := FunctionOf(definitions, public.route);
    to.Some? && rule == Rewrite(ExactPattern(public.path), Dest(to.value, public.route, public.query))
  }

  predicate SegmentMakes(definitions: seq<Definition>, segment: SegmentRewrite, rule: Rewrite) {
    var to := FunctionOf(definitions, segment.route);
    to.Some? && rule == Rewrite(segment.src, Dest(to.value, segment.route, Some(segment.query)))
  }

  predicate LiteralMakes(definition: Definition, route: string, rule: Rewrite) {
    LiteralKey(route) && rule == Rewrite(API + route, Dest(definition, route, None))
  }

  lemma {:induction false} PublicsExact(definitions: seq<Definition>, publics: seq<PublicRewrite>, rule: Rewrite)
    requires PublicRules(definitions, publics).Ok? && rule in PublicRules(definitions, publics).value
    ensures exists public :: public in publics && PublicMakes(definitions, public, rule)
  {
    if rule in PublicRule(definitions, publics[0]).value {
      assert publics[0] in publics;
    } else {
      PublicsExact(definitions, publics[1..], rule);
    }
  }

  lemma {:induction false} SegmentsSpelled(definitions: seq<Definition>, segments: seq<SegmentRewrite>, rule: Rewrite)
    requires SegmentRules(definitions, segments).Ok? && rule in SegmentRules(definitions, segments).value
    ensures exists segment :: segment in segments && SegmentMakes(definitions, segment, rule)
  {
    if rule in SegmentRule(definitions, segments[0]).value {
      assert segments[0] in segments;
    } else {
      SegmentsSpelled(definitions, segments[1..], rule);
    }
  }

  lemma {:induction false} RoutesKeyed(
    definition: Definition, routes: seq<string>, rewritten: set<string>, rule: Rewrite
  )
    requires RouteRules(definition, routes, rewritten).Ok? && rule in RouteRules(definition, routes, rewritten).value
    ensures exists route :: route in routes && LiteralMakes(definition, route, rule)
  {
    if rule in LiteralRule(definition, routes[0], rewritten).value {
      assert routes[0] in routes;
    } else {
      RoutesKeyed(definition, routes[1..], rewritten, rule);
    }
  }

  predicate KeyedBy(rule: Rewrite, d: Definition, route: string) {
    Dispatching(d, route) && LiteralMakes(d, route, rule)
  }

  lemma {:induction false} LiteralsKeyed(definitions: seq<Definition>, rewritten: set<string>, rule: Rewrite)
    requires LiteralRules(definitions, rewritten).Ok? && rule in LiteralRules(definitions, rewritten).value
    ensures exists d, route :: d in definitions && KeyedBy(rule, d, route)
  {
    var first := definitions[0];
    if first.dispatches && rule in RouteRules(first, first.routes, rewritten).value {
      RoutesKeyed(first, first.routes, rewritten, rule);
      var route :| route in first.routes && LiteralMakes(first, route, rule);
      assert first in definitions && KeyedBy(rule, first, route);
    } else {
      LiteralsKeyed(definitions[1..], rewritten, rule);
      var d, route :| d in definitions[1..] && KeyedBy(rule, d, route);
      assert d in definitions;
    }
  }

  lemma KeyNotFallback(route: string)
    requires LiteralKey(route)
    ensures API + route != FALLBACK
  {
    assert FALLBACK[|API|] == '(' && (API + route)[|API|] == route[0];
  }

  /** The fallback stands last, and nothing ahead of it has its pattern unless a segment rewrite spells it. */
  lemma FallbackLast(s: Sources, i: nat)
    requires Compiled(s).Ok? && i < |Compiled(s).value|
    requires forall segment :: segment in s.segments ==> segment.src != FALLBACK
    ensures Compiled(s).value[i].src == FALLBACK <==> i == |Compiled(s).value| - 1
  {
    var table := Compiled(s).value;
    var rule := table[i];
    var publics, segments := PublicRules(s.definitions, s.publics).value, SegmentRules(s.definitions, s.segments).value;
    var literals := LiteralRules(s.definitions, Rewritten(s.segments)).value;
    var own := OwnRules(PassThroughPaths(s.definitions, s.handWritten));
    if i < |publics| {
      assert rule == publics[i];
      PublicsExact(s.definitions, s.publics, rule);
      var public :| public in s.publics && PublicMakes(s.definitions, public, rule);
      ExactNotFallback(public.path);
    } else if i < |publics| + |segments| {
      assert rule == segments[i - |publics|];
      SegmentsSpelled(s.definitions, s.segments, rule);
      var segment :| segment in s.segments && SegmentMakes(s.definitions, segment, rule);
    } else if i < |publics| + |segments| + |literals| {
      assert rule == literals[i - |publics| - |segments|];
      LiteralsKeyed(s.definitions, Rewritten(s.segments), rule);
      var d, route :| d in s.definitions && KeyedBy(rule, d, route);
      KeyNotFallback(route);
    } else if i < |table| - 1 {
      assert rule == own[i - |publics| - |segments| - |literals|];
      OwnRulesHold(PassThroughPaths(s.definitions, s.handWritten), rule);
      ExactNotFallback(rule.dest);
    }
  }

  // ---- the callers check ----

  function NotFallback(table: seq<Rewrite>): seq<Rewrite> {
    if table == [] then []
    else (if table[0].src != FALLBACK then [table[0]] else []) + NotFallback(table[1..])
  }

  /** What the callers check takes a path to be served by: its table leaves the fallback out. */
  function ServedByRewrite(probe: string, table: seq<Rewrite>): Option<Rewrite> {
    LandingRule(probe, NotFallback(table))
  }

  lemma {:induction false} NotFallbackAll(table: seq<Rewrite>)
    requires forall i :: 0 <= i < |table| ==> table[i].src != FALLBACK
    ensures NotFallback(table) == table
  {
    if table != [] {
      NotFallbackAll(table[1..]);
    }
  }

  lemma {:induction false} NotFallbackConcat(a: seq<Rewrite>, b: seq<Rewrite>)
    ensures NotFallback(a + b) == NotFallback(a) + NotFallback(b)
  {
    if a == [] {
      assert a + b == b;
    } else {
      assert (a + b)[0] == a[0] && (a + b)[1..] == a[1..] + b;
      NotFallbackConcat(a[1..], b);
    }
  }

  /** The whole generated table, and the check's answer on it: the rule a path lands by, unless that is the fallback. */
  lemma CallersAgree(s: Sources, probe: string)
    requires Generated(s).Ok?
    requires forall segment :: segment in s.segments ==> segment.src != FALLBACK
    requires forall i :: 0 <= i < |s.elsewhere| ==> s.elsewhere[i].src != FALLBACK
    ensures var table := Generated(s).value;
      var landing := LandingRule(probe, table);
      ServedByRewrite(probe, table) == if landing.Some? && landing.value.src == FALLBACK then None else landing
  {
    var compiled := Compiled(s).value;
    var n := |compiled| - 1;
    forall i | 0 <= i <= n ensures compiled[i].src == FALLBACK <==> i == n {
      FallbackLast(s, i);
    }
    assert compiled == compiled[..n] + [compiled[n]];
    Regrouped(s.elsewhere, compiled[..n], [compiled[n]]);
    LastFallback(s.elsewhere + compiled[..n], compiled[n], probe);
  }

  /** A table whose last rule alone has the fallback's pattern. */
  lemma LastFallback(front: seq<Rewrite>, last: Rewrite, probe: string)
    requires last.src == FALLBACK && forall i :: 0 <= i < |front| ==> front[i].src != FALLBACK
    ensures var landing := LandingRule(probe, front + [last]);
      ServedByRewrite(probe, front + [last])
      == if landing.Some? && landing.value.src == FALLBACK then None else landing
  {
    NotFallbackAll(front);
    NotFallbackConcat(front, [last]);
    assert [last][1..] == [] && NotFallback([last]) == [] && front + [] == front;
    LandingConcat(probe, front, [last]);
    LandingOne(probe, last);
    LandedIn(probe, front);
  }

  // ---- queue consumers ----

  /** The path a rule lands on, before its query. */
  function PathPart(dest: string): string {
    dest[..Cutting.FirstCut(dest, '?')]
  }

  lemma DestPath(d: Definition, route: string, query: Option<string>)
    requires '?' !in d.file
    ensures PathPart(Dest(d, route, query)) == "/" + PublicPath(d)
  {
    var dest, path := Dest(d, route, query), "/" + PublicPath(d);
    assert path == API + d.file + ".js" && '?' !in path;
    assert dest[..|path|] == path && dest[|path|] == '?';
    Cutting.UniqueCut(dest, '?', |path|);
  }

  /** The routes a public path, a segment rewrite or the fallback names. */
  predicate NamedOutright(s: Sources, route: string) {
    || route == ORPC
    || (exists public :: public in s.publics && public.route == route)
    || (exists segment :: segment in s.segments && segment.route == route)
  }

  /** A rule lands on the function that has a route, for that route. */
  ghost predicate LandsOn(s: Sources, rule: Rewrite, route: string) {
    FunctionOf(s.definitions, route).Some? && Names(rule, FunctionOf(s.definitions, route).value, route)
  }

  lemma LandsBy(s: Sources, rule: Rewrite, holder: Definition, route: string, query: Option<string>)
    requires FunctionOf(s.definitions, route) == Some(holder) && rule.dest == Dest(holder, route, query)
    ensures LandsOn(s, rule, route)
  {
  }

  /** Where a rule's destination comes from: a route named outright, a dispatcher's key, or a path of its own. */
  lemma RuleFrom(s: Sources, rule: Rewrite)
    requires Compiled(s).Ok? && rule in Compiled(s).value
    ensures
      || (exists route :: NamedOutright(s, route) && LandsOn(s, rule, route))
      || (exists d, route :: d in s.definitions && KeyedBy(rule, d, route))
      || rule in OwnRules(PassThroughPaths(s.definitions, s.handWritten))
  {
    if rule in PublicRules(s.definitions, s.publics).value {
      PublicsExact(s.definitions, s.publics, rule);
      var public :| public in s.publics && PublicMakes(s.definitions, public, rule);
      LandsBy(s, rule, FunctionOf(s.definitions, public.route).value, public.route, public.query);
      assert NamedOutright(s, public.route);
    } else if rule in SegmentRules(s.definitions, s.segments).value {
      SegmentsSpelled(s.definitions, s.segments, rule);
      var segment :| segment in s.segments && SegmentMakes(s.definitions, segment, rule);
      LandsBy(s, rule, FunctionOf(s.definitions, segment.route).value, segment.route, Some(segment.query));
      assert NamedOutright(s, segment.route);
    } else if rule in LiteralRules(s.definitions, Rewritten(s.segments)).value {
      LiteralsKeyed(s.definitions, Rewritten(s.segments), rule);
    } else if rule !in OwnRules(PassThroughPaths(s.definitions, s.handWritten)) {
      LandsBy(s, rule, FunctionOf(s.definitions, ORPC).value, ORPC, Some("route-path=$1"));
      assert NamedOutright(s, ORPC);
    }
  }

  /** Two functions' own paths never run into one another's. */
  lemma PathsApart(d: Definition, e: Definition)
    requires PlainName(d.file) && PlainName(e.file)
    ensures PublicPath(e) == PublicPath(d) ==> e.file == d.file
    ensures AliasPath(PublicPath(e)) != PublicPath(d)
  {
    AliasOf(e);
    assert PublicPath(d)[|PublicPath(d)| - 3] == '.';
    if PublicPath(e) == PublicPath(d) {
      assert PublicPath(e)[4..|d.file| + 4] == e.file && PublicPath(d)[4..|d.file| + 4] == d.file;
    }
    assert '.' !in "api/" + e.file && '.' in PublicPath(d);
  }

  /** Neither of a hand-written function's paths is the function's. */
  predicate NamesApart(name: string, d: Definition) {
    '?' !in name && name != PublicPath(d) && AliasPath(name) != PublicPath(d)
  }

  lemma Unqueried(path: string)
    requires '?' !in path
    ensures PathPart(path) == path
  {
    Cutting.NoCut(path, '?');
    assert path[..|path|] == path;
  }

  lemma OwnPathsApart(s: Sources, d: Definition, name: string)
    requires d in s.definitions && !d.dispatches && d.queue.Some?
    requires forall e :: e in s.definitions ==> PlainName(e.file) && (e.file == d.file ==> e == d)
    requires forall hand :: hand in s.handWritten ==> NamesApart(hand, d)
    requires name in OwnNames(s.definitions) || name in s.handWritten
    ensures PathPart("/" + name) != "/" + PublicPath(d) && PathPart("/" + AliasPath(name)) != "/" + PublicPath(d)
  {
    if name in OwnNames(s.definitions) {
      OwnNamesHold(s.definitions, name);
      var e :| e in s.definitions && AnswersByName(e) && PublicPath(e) == name;
      PathsApart(d, e);
    }
    assert '?' !in name && name != PublicPath(d) && AliasPath(name) != PublicPath(d);
    Unqueried("/" + name);
    Unqueried("/" + AliasPath(name));
    assert ("/" + name)[1..] == name && ("/" + AliasPath(name))[1..] == AliasPath(name);
    assert ("/" + PublicPath(d))[1..] == PublicPath(d);
  }

  /**
   * A queue's consumer is landed on only where a public path, a segment rewrite or the hosted route names a route of
   * its.
   */
  lemma QueueUnnamed(s: Sources, d: Definition, rule: Rewrite)
    requires Compiled(s).Ok? && rule in Compiled(s).value
    requires d in s.definitions && !d.dispatches && d.queue.Some?
    requires forall e :: e in s.definitions ==> PlainName(e.file) && (e.file == d.file ==> e == d)
    requires forall name :: name in s.handWritten ==> NamesApart(name, d)
    ensures PathPart(rule.dest) == "/" + PublicPath(d) ==>
      exists route :: NamedOutright(s, route) && FunctionOf(s.definitions, route) == Some(d)
  {
    if PathPart(rule.dest) == "/" + PublicPath(d) {
      RuleFrom(s, rule);
      if route :| NamedOutright(s, route) && LandsOn(s, rule, route) {
        var e := FunctionOf(s.definitions, route).value;
        var query :| rule.dest == Dest(e, route, query);
        HolderListed(s.definitions, route);
        DestPath(e, route, query);
        SamePath(d, e);
      } else if e, route :| e in s.definitions && KeyedBy(rule, e, route) {
        DestPath(e, route, None);
        SamePath(d, e);
        assert false;
      } else {
        OwnRulesAre(s, rule);
        var name :| (name in OwnNames(s.definitions) || name in s.handWritten)
          && (rule.dest == "/" + name || rule.dest == "/" + AliasPath(name));
        OwnPathsApart(s, d, name);
        assert false;
      }
    }
  }

  lemma SamePath(d: Definition, e: Definition)
    requires PlainName(d.file) && PlainName(e.file)
    requires "/" + PublicPath(e) == "/" + PublicPath(d)
    ensures e.file == d.file
  {
    assert ("/" + PublicPath(e))[1..] == PublicPath(e) && ("/" + PublicPath(d))[1..] == PublicPath(d);
    PathsApart(d, e);
  }
}
