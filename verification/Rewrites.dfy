/**
 * The compilation of the web service's functions into an ordered table of rewrites, and how a path lands by the table:
 * on the first rule whose pattern matches all of it.
 */
module Rewrites {
  import opened Basics
  import opened Patterns

  datatype Definition = Definition(file: string, routes: seq<string>, dispatches: bool, queue: Option<string>)

  datatype SegmentRewrite = SegmentRewrite(src: string, route: string, query: string)

  datatype PublicRewrite = PublicRewrite(path: string, route: string, query: Option<string>)

  datatype Rewrite = Rewrite(src: string, dest: string)

  datatype Refusal = NoOrpc | NoPublic(path: string) | NoSegment(src: string) | NeedsRewrite(route: string)

  type Compilation = Result<seq<Rewrite>, Refusal>

  /**
   * What a table is compiled from; `handWritten` are the paths of the functions no route file makes, and `elsewhere`
   * the rules that land on no function at all.
   */
  datatype Sources = Sources(
    elsewhere: seq<Rewrite>,
    definitions: seq<Definition>,
    segments: seq<SegmentRewrite>,
    publics: seq<PublicRewrite>,
    handWritten: seq<string>
  )

  const API := "/api/"
  const ORPC := "orpc"
  const FALLBACK := API + REST

  // ---- names ----

  function PublicPath(definition: Definition): string {
    "api/" + definition.file + ".js"
  }

  /** Where a path's extension starts, looked for in its first `n` characters; a name's first character starts none. */
  function ExtensionStart(path: string, n: nat): (start: nat)
    requires n <= |path|
    ensures start <= |path|
  {
    if n == 0 || path[n - 1] == '/' then |path|
    else if path[n - 1] == '.' then if n > 1 && path[n - 2] != '/' then n - 1 else |path|
    else ExtensionStart(path, n - 1)
  }

  function AliasPath(path: string): string {
    path[..ExtensionStart(path, |path|)]
  }

  function Dest(definition: Definition, route: string, query: Option<string>): string {
    "/" + PublicPath(definition) + "?route=" + route + (if query.None? then "" else "&" + query.value)
  }

  /** The function a route is in, the last that lists it where several do. */
  function FunctionOf(definitions: seq<Definition>, route: string): Option<Definition> {
    if definitions == [] then None
    else
      var later := FunctionOf(definitions[1..], route);
      if later.None? && route in definitions[0].routes then Some(definitions[0]) else later
  }

  predicate LiteralKey(route: string) {
    route != "" && forall i :: 0 <= i < |route| ==>
      'a' <= route[i] <= 'z' || '0' <= route[i] <= '9' || route[i] == '/' || route[i] == '-'
  }

  // ---- the table's parts ----

  function Then(first: Compilation, rest: Compilation): Compilation {
    if first.Err? then first else if rest.Err? then rest else Ok(first.value + rest.value)
  }

  function PublicRule(definitions: seq<Definition>, public: PublicRewrite): Compilation {
    var definition := FunctionOf(definitions, public.route);
    if definition.None? then Err(NoPublic(public.path))
    else Ok([Rewrite(ExactPattern(public.path), Dest(definition.value, public.route, public.query))])
  }

  function PublicRules(definitions: seq<Definition>, publics: seq<PublicRewrite>): Compilation {
    if publics == [] then Ok([])
    else Then(PublicRule(definitions, publics[0]), PublicRules(definitions, publics[1..]))
  }

  function SegmentRule(definitions: seq<Definition>, segment: SegmentRewrite): Compilation {
    var definition := FunctionOf(definitions, segment.route);
    if definition.None? then Err(NoSegment(segment.src))
    else Ok([Rewrite(segment.src, Dest(definition.value, segment.route, Some(segment.query)))])
  }

  function SegmentRules(definitions: seq<Definition>, segments: seq<SegmentRewrite>): Compilation {
    if segments == [] then Ok([])
    else Then(SegmentRule(definitions, segments[0]), SegmentRules(definitions, segments[1..]))
  }

  /** The routes a segment rewrite or the fallback already names. */
  function Rewritten(segments: seq<SegmentRewrite>): set<string> {
    {ORPC} + set segment <- segments :: segment.route
  }

  function LiteralRule(definition: Definition, route: string, rewritten: set<string>): Compilation {
    if route in rewritten then Ok([])
    else if !LiteralKey(route) then Err(NeedsRewrite(route))
    else Ok([Rewrite(API + route, Dest(definition, route, None))])
  }

  function RouteRules(definition: Definition, routes: seq<string>, rewritten: set<string>): Compilation {
    if routes == [] then Ok([])
    else Then(LiteralRule(definition, routes[0], rewritten), RouteRules(definition, routes[1..], rewritten))
  }

  function LiteralRules(definitions: seq<Definition>, rewritten: set<string>): Compilation {
    if definitions == [] then Ok([])
    else
      var first := definitions[0];
      Then(if first.dispatches then RouteRules(first, first.routes, rewritten) else Ok([]),
           LiteralRules(definitions[1..], rewritten))
  }

  predicate AnswersByName(definition: Definition) {
    !definition.dispatches && definition.queue.None?
  }

  function OwnNames(definitions: seq<Definition>): seq<string> {
    if definitions == [] then []
    else (if AnswersByName(definitions[0]) then [PublicPath(definitions[0])] else []) + OwnNames(definitions[1..])
  }

  function BothPaths(names: seq<string>): seq<string> {
    if names == [] then [] else ["/" + AliasPath(names[0]), "/" + names[0]] + BothPaths(names[1..])
  }

  /** By code unit, as `sort` compares strings. */
  predicate UpTo(a: string, b: string) {
    a == "" || (b != "" && (a[0] < b[0] || (a[0] == b[0] && UpTo(a[1..], b[1..]))))
  }

  function Inserted(x: string, sorted: seq<string>): seq<string> {
    if sorted == [] || UpTo(x, sorted[0]) then [x] + sorted else [sorted[0]] + Inserted(x, sorted[1..])
  }

  function Sorted(xs: seq<string>): seq<string> {
    if xs == [] then [] else Inserted(xs[0], Sorted(xs[1..]))
  }

  function PassThroughPaths(definitions: seq<Definition>, handWritten: seq<string>): seq<string> {
    Sorted(BothPaths(OwnNames(definitions) + handWritten))
  }

  function OwnRules(paths: seq<string>): seq<Rewrite> {
    if paths == [] then [] else [Rewrite(ExactPattern(paths[0]), paths[0])] + OwnRules(paths[1..])
  }

  function Fallback(orpc: Definition): Rewrite {
    Rewrite(FALLBACK, Dest(orpc, ORPC, Some("route-path=$1")))
  }

  function Ending(s: Sources, orpc: Definition): seq<Rewrite> {
    OwnRules(PassThroughPaths(s.definitions, s.handWritten)) + [Fallback(orpc)]
  }

  /** What the compilation amounts to: every part in its place, or the first refusal. */
  function Compiled(s: Sources): Compilation {
    var orpc := FunctionOf(s.definitions, ORPC);
    if orpc.None? then Err(NoOrpc)
    else
      Then(PublicRules(s.definitions, s.publics),
        Then(SegmentRules(s.definitions, s.segments),
          Then(LiteralRules(s.definitions, Rewritten(s.segments)), Ok(Ending(s, orpc.value)))))
  }

  /** `generatedRewrites`: the rules that land elsewhere, ahead of the functions' own. */
  function Generated(s: Sources): Compilation {
    Then(Ok(s.elsewhere), Compiled(s))
  }

  lemma ThenAssoc(a: Compilation, b: Compilation, c: Compilation)
    ensures Then(Then(a, b), c) == Then(a, Then(b, c))
  {
    if a.Ok? && b.Ok? && c.Ok? {
      assert (a.value + b.value) + c.value == a.value + (b.value + c.value);
    }
  }

  lemma ThenNothing(a: Compilation)
    ensures Then(a, Ok([])) == a && Then(Ok([]), a) == a
  {
    if a.Ok? {
      assert a.value + [] == a.value && [] + a.value == a.value;
    }
  }

  method PublicsPushed(definitions: seq<Definition>, publics: seq<PublicRewrite>) returns (r: Compilation)
    ensures r == PublicRules(definitions, publics)
  {
    var rewrites: seq<Rewrite> := [];
    ThenNothing(PublicRules(definitions, publics));
    for i := 0 to |publics|
      invariant PublicRules(definitions, publics) == Then(Ok(rewrites), PublicRules(definitions, publics[i..]))
    {
      var definition := FunctionOf(definitions, publics[i].route);
      if definition.None? {
        return Err(NoPublic(publics[i].path));
      }
      var rule := Rewrite(ExactPattern(publics[i].path), Dest(definition.value, publics[i].route, publics[i].query));
      ThenAssoc(Ok(rewrites), Ok([rule]), PublicRules(definitions, publics[i + 1..]));
      assert publics[i..][1..] == publics[i + 1..];
      rewrites := rewrites + [rule];
    }
    ThenNothing(Ok(rewrites));
    return Ok(rewrites);
  }

  /** The segments' rules, and the routes they and the fallback name. */
  method SegmentsPushed(definitions: seq<Definition>, segments: seq<SegmentRewrite>)
    returns (r: Compilation, rewritten: set<string>)
    ensures r == SegmentRules(definitions, segments)
    ensures r.Ok? ==> rewritten == Rewritten(segments)
  {
    var rewrites: seq<Rewrite> := [];
    rewritten := {ORPC};
    ThenNothing(SegmentRules(definitions, segments));
    for i := 0 to |segments|
      invariant SegmentRules(definitions, segments) == Then(Ok(rewrites), SegmentRules(definitions, segments[i..]))
      invariant rewritten == Rewritten(segments[..i])
    {
      var definition := FunctionOf(definitions, segments[i].route);
      if definition.None? {
        return Err(NoSegment(segments[i].src)), rewritten;
      }
      var rule := Rewrite(segments[i].src, Dest(definition.value, segments[i].route, Some(segments[i].query)));
      ThenAssoc(Ok(rewrites), Ok([rule]), SegmentRules(definitions, segments[i + 1..]));
      assert segments[i..][1..] == segments[i + 1..];
      assert segments[..i + 1] == segments[..i] + [segments[i]];
      rewrites := rewrites + [rule];
      rewritten := rewritten + {segments[i].route};
    }
    assert segments[..|segments|] == segments;
    ThenNothing(Ok(rewrites));
    return Ok(rewrites), rewritten;
  }

  method RoutesPushed(definition: Definition, rewritten: set<string>) returns (r: Compilation)
    ensures r == RouteRules(definition, definition.routes, rewritten)
  {
    var routes := definition.routes;
    var rewrites: seq<Rewrite> := [];
    ThenNothing(RouteRules(definition, routes, rewritten));
    for i := 0 to |routes|
      invariant RouteRules(definition, routes, rewritten)
        == Then(Ok(rewrites), RouteRules(definition, routes[i..], rewritten))
    {
      assert routes[i..][1..] == routes[i + 1..];
      if routes[i] in rewritten {
        ThenNothing(RouteRules(definition, routes[i + 1..], rewritten));
        continue;
      }
      if !LiteralKey(routes[i]) {
        return Err(NeedsRewrite(routes[i]));
      }
      var rule := Rewrite(API + routes[i], Dest(definition, routes[i], None));
      ThenAssoc(Ok(rewrites), Ok([rule]), RouteRules(definition, routes[i + 1..], rewritten));
      rewrites := rewrites + [rule];
    }
    ThenNothing(Ok(rewrites));
    return Ok(rewrites);
  }

  method LiteralsPushed(definitions: seq<Definition>, rewritten: set<string>) returns (r: Compilation)
    ensures r == LiteralRules(definitions, rewritten)
  {
    var rewrites: seq<Rewrite> := [];
    ThenNothing(LiteralRules(definitions, rewritten));
    for i := 0 to |definitions|
      invariant LiteralRules(definitions, rewritten) == Then(Ok(rewrites), LiteralRules(definitions[i..], rewritten))
    {
      assert definitions[i..][1..] == definitions[i + 1..];
      ThenNothing(LiteralRules(definitions[i + 1..], rewritten));
      if !definitions[i].dispatches {
        continue;
      }
      var pushed := RoutesPushed(definitions[i], rewritten);
      if pushed.Err? {
        return pushed;
      }
      ThenAssoc(Ok(rewrites), pushed, LiteralRules(definitions[i + 1..], rewritten));
      rewrites := rewrites + pushed.value;
    }
    ThenNothing(Ok(rewrites));
    return Ok(rewrites);
  }

  method OwnPushed(paths: seq<string>) returns (rewrites: seq<Rewrite>)
    ensures rewrites == OwnRules(paths)
  {
    rewrites := [];
    for i := 0 to |paths|
      invariant OwnRules(paths) == rewrites + OwnRules(paths[i..])
    {
      assert paths[i..][1..] == paths[i + 1..];
      var rule := Rewrite(ExactPattern(paths[i]), paths[i]);
      assert rewrites + ([rule] + OwnRules(paths[i + 1..])) == rewrites + [rule] + OwnRules(paths[i + 1..]);
      rewrites := rewrites + [rule];
    }
  }

  /** `apiRewrites`: the table, or the first refusal met. */
  method ApiRewrites(s: Sources) returns (r: Compilation)
    ensures r == Compiled(s)
  {
    var orpc := FunctionOf(s.definitions, ORPC);
    if orpc.None? {
      return Err(NoOrpc);
    }
    var publics := PublicsPushed(s.definitions, s.publics);
    if publics.Err? {
      return publics;
    }
    var segments, rewritten := SegmentsPushed(s.definitions, s.segments);
    if segments.Err? {
      return segments;
    }
    var literals := LiteralsPushed(s.definitions, rewritten);
    if literals.Err? {
      return literals;
    }
    var own := OwnPushed(PassThroughPaths(s.definitions, s.handWritten));
    return Ok(publics.value + (segments.value + (literals.value + (own + [Fallback(orpc.value)]))));
  }

  method GeneratedRewrites(s: Sources) returns (r: Compilation)
    ensures r == Generated(s)
  {
    var own := ApiRewrites(s);
    return if own.Err? then own else Ok(s.elsewhere + own.value);
  }

  // ---- landing ----

  predicate Takes(rule: Rewrite, path: string) {
    var pattern := Read(rule.src);
    pattern.Some? && Matches(pattern.value, path)
  }

  /** `landingRule`: the table's first rule whose pattern matches the whole path. */
  function LandingRule(path: string, table: seq<Rewrite>): Option<Rewrite> {
    if table == [] then None
    else if Takes(table[0], path) then Some(table[0])
    else LandingRule(path, table[1..])
  }

  /** `landedPath`: the rule's destination, the pattern's groups written into it. */
  function LandedPath(path: string, rule: Rewrite): string
    requires Takes(rule, path)
  {
    Written(rule.dest, path, Groups(Read(rule.src).value, path).value)
  }
}
