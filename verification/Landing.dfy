/** What the compiled table means to a path: which rule takes it, said without the table. */
module Landing {
  import opened Basics
  import opened Patterns
  import opened Rewrites

  /** Why a path lands where it does. */
  datatype Meaning =
    | ByElsewhere(rule: Rewrite)
    | ByPublic(public: PublicRewrite)
    | BySegment(segment: SegmentRewrite)
    | ByKey(holder: Definition, route: string)
    | ByName
    | ByFallback
    | Nowhere

  function FirstPublic(publics: seq<PublicRewrite>, path: string): Option<PublicRewrite> {
    if publics == [] then None
    else if publics[0].path == path then Some(publics[0])
    else FirstPublic(publics[1..], path)
  }

  predicate SegmentTakes(segment: SegmentRewrite, path: string) {
    var pattern := Read(segment.src);
    pattern.Some? && Matches(pattern.value, path)
  }

  function FirstSegment(segments: seq<SegmentRewrite>, path: string): Option<SegmentRewrite> {
    if segments == [] then None
    else if SegmentTakes(segments[0], path) then Some(segments[0])
    else FirstSegment(segments[1..], path)
  }

  predicate Dispatching(definition: Definition, route: string) {
    definition.dispatches && route in definition.routes
  }

  /** The first dispatcher that lists a route. */
  function FirstHolder(definitions: seq<Definition>, route: string): Option<Definition> {
    if definitions == [] then None
    else if Dispatching(definitions[0], route) then Some(definitions[0])
    else FirstHolder(definitions[1..], route)
  }

  /** The paths of the functions that answer by their own names. */
  predicate OwnPath(s: Sources, path: string) {
    path in BothPaths(OwnNames(s.definitions) + s.handWritten)
  }

  function MeaningOf(s: Sources, path: string): Meaning {
    var elsewhere := LandingRule(path, s.elsewhere);
    var public, segment := FirstPublic(s.publics, path), FirstSegment(s.segments, path);
    if elsewhere.Some? then ByElsewhere(elsewhere.value)
    else if public.Some? then ByPublic(public.value)
    else if segment.Some? then BySegment(segment.value)
    else if
      API <= path && path[|API|..] !in Rewritten(s.segments) && FirstHolder(s.definitions, path[|API|..]).Some?
    then
      ByKey(FirstHolder(s.definitions, path[|API|..]).value, path[|API|..])
    else if OwnPath(s, path) then ByName
    else if API <= path then ByFallback
    else Nowhere
  }

  /** The rule a path's meaning asks for. */
  predicate Answers(s: Sources, path: string, meaning: Meaning, rule: Option<Rewrite>) {
    match meaning
    case ByElsewhere(other) => rule == Some(other)
    case ByPublic(public) =>
      var to := FunctionOf(s.definitions, public.route);
      to.Some? && rule == Some(Rewrite(ExactPattern(path), Dest(to.value, public.route, public.query)))
    case BySegment(segment) =>
      var to := FunctionOf(s.definitions, segment.route);
      to.Some? && rule == Some(Rewrite(segment.src, Dest(to.value, segment.route, Some(segment.query))))
    case ByKey(holder, route) => rule == Some(Rewrite(path, Dest(holder, route, None)))
    case ByName => rule == Some(Rewrite(ExactPattern(path), path))
    case ByFallback =>
      var to := FunctionOf(s.definitions, ORPC);
      to.Some? && rule == Some(Fallback(to.value))
    case Nowhere => rule == None
  }

  lemma {:induction false} LandingConcat(path: string, a: seq<Rewrite>, b: seq<Rewrite>)
    ensures LandingRule(path, a + b)
      == if LandingRule(path, a).Some? then LandingRule(path, a) else LandingRule(path, b)
  {
    if a == [] {
      assert a + b == b;
    } else {
      assert (a + b)[0] == a[0] && (a + b)[1..] == a[1..] + b;
      LandingConcat(path, a[1..], b);
    }
  }

  /** The rule a path lands by is one of the table's, and takes the path. */
  lemma {:induction false} LandedIn(path: string, table: seq<Rewrite>)
    ensures var rule := LandingRule(path, table); rule.Some? ==> rule.value in table && Takes(rule.value, path)
  {
    if table != [] {
      LandedIn(path, table[1..]);
    }
  }

  lemma LandingOne(path: string, rule: Rewrite)
    ensures LandingRule(path, [rule]) == if Takes(rule, path) then Some(rule) else None
  {
    assert [rule][1..] == [];
  }

  lemma {:induction false} PublicsLand(s: Sources, publics: seq<PublicRewrite>, path: string)
    requires PublicRules(s.definitions, publics).Ok?
    ensures var rule := LandingRule(path, PublicRules(s.definitions, publics).value);
      var public := FirstPublic(publics, path);
      if public.None? then rule == None else Answers(s, path, ByPublic(public.value), rule)
  {
    if publics != [] {
      var first := PublicRule(s.definitions, publics[0]);
      PublicsLand(s, publics[1..], path);
      LandingConcat(path, first.value, PublicRules(s.definitions, publics[1..]).value);
      LandingOne(path, first.value[0]);
      ExactMatches(publics[0].path, path);
    }
  }

  lemma {:induction false} SegmentsLand(s: Sources, segments: seq<SegmentRewrite>, path: string)
    requires SegmentRules(s.definitions, segments).Ok?
    ensures var rule := LandingRule(path, SegmentRules(s.definitions, segments).value);
      var segment := FirstSegment(segments, path);
      if segment.None? then rule == None else Answers(s, path, BySegment(segment.value), rule)
  {
    if segments != [] {
      var first := SegmentRule(s.definitions, segments[0]);
      SegmentsLand(s, segments[1..], path);
      LandingConcat(path, first.value, SegmentRules(s.definitions, segments[1..]).value);
      LandingOne(path, first.value[0]);
    }
  }

  /** A literal key is its own pattern. */
  lemma KeyMatches(route: string, path: string)
    requires LiteralKey(route)
    ensures ExactPattern(API + route) == API + route
    ensures forall dest :: Takes(Rewrite(API + route, dest), path) <==> path == API + route
  {
    UnspecialKept(API + route);
    ExactMatches(API + route, path);
  }

  lemma {:induction false} RoutesLand(
    definition: Definition, routes: seq<string>, rewritten: set<string>, path: string
  )
    requires RouteRules(definition, routes, rewritten).Ok?
    ensures LandingRule(path, RouteRules(definition, routes, rewritten).value)
      == if API <= path && path[|API|..] in routes && path[|API|..] !in rewritten
         then Some(Rewrite(path, Dest(definition, path[|API|..], None))) else None
  {
    if routes != [] {
      var first := LiteralRule(definition, routes[0], rewritten);
      RoutesLand(definition, routes[1..], rewritten, path);
      LandingConcat(path, first.value, RouteRules(definition, routes[1..], rewritten).value);
      if routes[0] !in rewritten {
        LandingOne(path, first.value[0]);
        KeyMatches(routes[0], path);
        assert path == API + routes[0] <==> API <= path && path[|API|..] == routes[0];
      }
      assert API <= path ==> (path[|API|..] in routes <==> path[|API|..] == routes[0] || path[|API|..] in routes[1..]);
    }
  }

  lemma {:induction false} LiteralsLand(definitions: seq<Definition>, rewritten: set<string>, path: string)
    requires LiteralRules(definitions, rewritten).Ok?
    ensures var rule := LandingRule(path, LiteralRules(definitions, rewritten).value);
      if API <= path && path[|API|..] !in rewritten && FirstHolder(definitions, path[|API|..]).Some?
      then rule == Some(Rewrite(path, Dest(FirstHolder(definitions, path[|API|..]).value, path[|API|..], None)))
      else rule == None
  {
    if definitions != [] {
      var first := definitions[0];
      var rules := if first.dispatches then RouteRules(first, first.routes, rewritten) else Ok([]);
      LiteralsLand(definitions[1..], rewritten, path);
      LandingConcat(path, rules.value, LiteralRules(definitions[1..], rewritten).value);
      if first.dispatches {
        RoutesLand(first, first.routes, rewritten, path);
      }
    }
  }

  lemma {:induction false} OwnLand(paths: seq<string>, path: string)
    ensures LandingRule(path, OwnRules(paths))
      == if path in paths then Some(Rewrite(ExactPattern(path), path)) else None
  {
    if paths != [] {
      var first := Rewrite(ExactPattern(paths[0]), paths[0]);
      OwnLand(paths[1..], path);
      LandingConcat(path, [first], OwnRules(paths[1..]));
      LandingOne(path, first);
      ExactMatches(paths[0], path);
    }
  }

  lemma {:induction false} InsertedKeeps(x: string, sorted: seq<string>)
    ensures multiset(Inserted(x, sorted)) == multiset(sorted) + multiset{x}
  {
    if sorted == [] || UpTo(x, sorted[0]) {
      assert multiset([x] + sorted) == multiset{x} + multiset(sorted);
    } else {
      InsertedKeeps(x, sorted[1..]);
      assert sorted == [sorted[0]] + sorted[1..];
    }
  }

  /** Sorting keeps every path, as often as it stood. */
  lemma {:induction false} SortedKeeps(xs: seq<string>)
    ensures multiset(Sorted(xs)) == multiset(xs)
  {
    if xs != [] {
      SortedKeeps(xs[1..]);
      InsertedKeeps(xs[0], Sorted(xs[1..]));
      assert xs == [xs[0]] + xs[1..];
    }
  }

  /** One string stands before another where it starts it, or is the lesser at the first place they differ. */
  predicate LesserAt(a: string, b: string, i: int) {
    0 <= i < |a| && i < |b| && a[..i] == b[..i] && a[i] < b[i]
  }

  lemma {:induction false} UpToExactly(a: string, b: string)
    ensures UpTo(a, b) <==> a <= b || exists i :: LesserAt(a, b, i)
    decreases |a|
  {
    if a != "" && b != "" && a[0] == b[0] {
      UpToExactly(a[1..], b[1..]);
      assert a <= b <==> a[1..] <= b[1..];
      if i :| LesserAt(a[1..], b[1..], i) {
        assert a[..i + 1] == [a[0]] + a[1..][..i] && b[..i + 1] == [b[0]] + b[1..][..i];
        assert LesserAt(a, b, i + 1);
      }
      if i :| LesserAt(a, b, i) {
        assert i > 0 && a[1..][..i - 1] == a[..i][1..] && b[1..][..i - 1] == b[..i][1..];
        assert LesserAt(a[1..], b[1..], i - 1);
      }
    } else if a != "" && b != "" && a[0] < b[0] {
      assert LesserAt(a, b, 0);
    }
  }

  lemma {:induction false} UpToOrders(a: string, b: string, c: string)
    ensures UpTo(a, a) && (UpTo(a, b) || UpTo(b, a))
    ensures UpTo(a, b) && UpTo(b, a) ==> a == b
    ensures UpTo(a, b) && UpTo(b, c) ==> UpTo(a, c)
    decreases |a|
  {
    if a != "" {
      UpToOrders(a[1..], if b == "" then "" else b[1..], if c == "" then "" else c[1..]);
      assert b != "" && a[0] == b[0] && a[1..] == b[1..] ==> a == [a[0]] + a[1..] == b;
    }
  }

  predicate InOrder(xs: seq<string>) {
    forall i, j :: 0 <= i < j < |xs| ==> UpTo(xs[i], xs[j])
  }

  lemma {:induction false} InsertedInOrder(x: string, sorted: seq<string>)
    requires InOrder(sorted)
    ensures InOrder(Inserted(x, sorted))
  {
    if sorted != [] {
      if UpTo(x, sorted[0]) {
        forall j | 0 <= j < |sorted| ensures UpTo(x, sorted[j]) {
          UpToOrders(x, sorted[0], sorted[j]);
        }
      } else {
        UpToOrders(x, sorted[0], sorted[0]);
        InsertedInOrder(x, sorted[1..]);
        InsertedKeeps(x, sorted[1..]);
        var rest := Inserted(x, sorted[1..]);
        forall j | 0 <= j < |rest| ensures UpTo(sorted[0], rest[j]) {
          assert rest[j] in multiset(rest);
          assert rest[j] == x || rest[j] in sorted[1..];
        }
      }
    }
  }

  /** The paths of the table's own rules stand in order, by code unit. */
  lemma {:induction false} SortedInOrder(xs: seq<string>)
    ensures InOrder(Sorted(xs))
  {
    if xs != [] {
      SortedInOrder(xs[1..]);
      InsertedInOrder(xs[0], Sorted(xs[1..]));
    }
  }

  lemma SortedHolds(xs: seq<string>, x: string)
    ensures x in Sorted(xs) <==> x in xs
  {
    SortedKeeps(xs);
    assert x in multiset(Sorted(xs)) <==> x in multiset(xs);
  }

  lemma RestReads()
    ensures Read(REST) == Some([Rest])
  {
    assert REST[|REST|..] == "" && Read("") == Some([]);
    assert !(SEGMENT <= REST) by {
      assert SEGMENT[1] != REST[1];
    }
    assert [Rest] + [] == [Rest];
  }

  /** Plain text and `(.*)` after it: every path that starts so, what follows captured. */
  lemma PrefixTakes(rule: Rewrite, text: string, path: string)
    requires Unspecial(text) && rule.src == text + REST
    ensures Read(rule.src) == Some(Spelled(text) + [Rest])
    ensures Takes(rule, path) <==> text <= path
    ensures text <= path ==> Groups(Read(rule.src).value, path) == Some([path[|text|..]])
  {
    UnspecialKept(text);
    ReadExactly(text, REST);
    RestReads();
    AllBeforeSpelled(text, [Rest]);
    PrefixMatches(text, path);
  }

  lemma PlainApi()
    ensures Unspecial(API)
  {
    assert !Special('/') && !Special('a') && !Special('p') && !Special('i');
  }

  lemma FallbackTakes(orpc: Definition, path: string)
    ensures Read(FALLBACK) == Some(Spelled(API) + [Rest])
    ensures Takes(Fallback(orpc), path) <==> API <= path
    ensures API <= path ==> Groups(Read(FALLBACK).value, path) == Some([path[|API|..]])
  {
    PlainApi();
    PrefixTakes(Fallback(orpc), API, path);
  }

  lemma EndingLands(s: Sources, orpc: Definition, path: string)
    ensures LandingRule(path, Ending(s, orpc))
      == if OwnPath(s, path) then Some(Rewrite(ExactPattern(path), path))
         else if API <= path then Some(Fallback(orpc)) else None
  {
    var own := PassThroughPaths(s.definitions, s.handWritten);
    LandingConcat(path, OwnRules(own), [Fallback(orpc)]);
    OwnLand(own, path);
    SortedHolds(BothPaths(OwnNames(s.definitions) + s.handWritten), path);
    LandingOne(path, Fallback(orpc));
    FallbackTakes(orpc, path);
  }

  /**
   * The whole generated table decides: a path lands by first match on the rule its meaning asks for, and nowhere only
   * where it has none.
   */
  lemma TableLands(s: Sources, path: string)
    requires Generated(s).Ok?
    ensures Answers(s, path, MeaningOf(s, path), LandingRule(path, Generated(s).value))
  {
    var orpc := FunctionOf(s.definitions, ORPC).value;
    var publics, segments := PublicRules(s.definitions, s.publics).value, SegmentRules(s.definitions, s.segments).value;
    var literals := LiteralRules(s.definitions, Rewritten(s.segments)).value;
    var ending := Ending(s, orpc);
    LandingConcat(path, s.elsewhere, publics + (segments + (literals + ending)));
    LandingConcat(path, publics, segments + (literals + ending));
    LandingConcat(path, segments, literals + ending);
    LandingConcat(path, literals, ending);
    PublicsLand(s, s.publics, path);
    SegmentsLand(s, s.segments, path);
    LiteralsLand(s.definitions, Rewritten(s.segments), path);
    EndingLands(s, orpc, path);
  }
}
