/**
 * The rules that carry no path of the client's, landed and dispatched: those that name parameters, and the public
 * paths.
 */
module ServingTheorems {
  import opened Basics
  import opened Paths
  import opened Queries
  import opened Patterns
  import opened Rewrites
  import opened Landing
  import opened Functions
  import opened Dispatch
  import opened DispatchTheorems
  import Cutting

  // ---- parameters ----

  /** The query that reads a pattern's groups into parameters of these names, in order from group `next`. */
  function Parameters(names: seq<string>, next: nat): string
    requires 1 <= next && next + |names| <= 10
  {
    if names == [] then ""
    else names[0] + "=$" + ['0' + next as char] + (if |names| == 1 then "" else "&" + Parameters(names[1..], next + 1))
  }

  /** The same query with the groups written in. */
  function Filled(names: seq<string>, groups: seq<string>): string
    requires |names| == |groups|
  {
    if names == [] then ""
    else names[0] + "=" + groups[0] + (if |names| == 1 then "" else "&" + Filled(names[1..], groups[1..]))
  }

  /** Each name with the group it was given, as a query is decoded. */
  function Given(names: seq<string>, groups: seq<string>): seq<Pair>
    requires |names| == |groups|
  {
    if names == [] then [] else [(names[0], Decoded(groups[0]))] + Given(names[1..], groups[1..])
  }

  /** Names a route may read its parameters by. */
  predicate ParameterNames(names: seq<string>) {
    forall i :: 0 <= i < |names| ==> ParameterName(names[i]) && names[i] != ROUTE && names[i] != PATH
  }

  lemma {:induction false} ParametersWritten(
    names: seq<string>, next: nat, groups: seq<string>, path: string
  )
    requires 1 <= next && next + |names| <= 10 && next - 1 + |names| == |groups| && ParameterNames(names)
    ensures Written(Parameters(names, next), path, groups) == Filled(names, groups[next - 1..])
  {
    if names != [] {
      var rest := if |names| == 1 then "" else "&" + Parameters(names[1..], next + 1);
      ParameterWritten(names[0], next, rest, path, groups);
      assert groups[next - 1..][0] == groups[next - 1] && groups[next - 1..][1..] == groups[next..];
      if |names| > 1 {
        WrittenPlain("&", Parameters(names[1..], next + 1), path, groups);
        ParametersWritten(names[1..], next + 1, groups, path);
      }
    }
  }

  lemma ParameterWritten(name: string, next: nat, rest: string, path: string, groups: seq<string>)
    requires ParameterName(name) && 1 <= next <= |groups| <= 9
    ensures Written(name + "=$" + ['0' + next as char] + rest, path, groups)
      == name + "=" + groups[next - 1] + Written(rest, path, groups)
  {
    var group := ['$', '0' + next as char];
    WrittenPlain(name + "=", group + rest, path, groups);
    GroupWritten(next, rest, path, groups);
    Regrouped(name + "=", group, rest);
    assert name + "=$" + ['0' + next as char] == name + "=" + group;
    Regrouped(name + "=", groups[next - 1], Written(rest, path, groups));
  }

  predicate Uncut(groups: seq<string>) {
    forall i :: 0 <= i < |groups| ==> '&' !in groups[i]
  }

  lemma {:induction false} GivenKept(names: seq<string>, groups: seq<string>, name: string)
    requires |names| == |groups| && name !in names
    ensures First(Given(names, groups), name) == None && Without(Given(names, groups), name) == Given(names, groups)
  {
    if names != [] {
      GivenKept(names[1..], groups[1..], name);
    }
  }

  /** A group with nothing in it for a decoder reads back as it stood in the path. */
  lemma GroupReads(group: string)
    requires '%' !in group
    ensures Decoded(group) == group <==> '+' !in group
  {
    DecodedPlain(group);
  }

  /** A name's value up to its first `&`: what follows is read as pairs of its own. */
  lemma PieceUncut(name: string, group: string, rest: string)
    requires ParameterName(name) && '&' !in group
    ensures Pairs(name + "=" + group) == [(name, Decoded(group))]
    ensures Pairs(name + "=" + group + "&" + rest) == [(name, Decoded(group))] + Pairs(rest)
  {
    CarriedPairs(name, group);
    PairNamed(name, group);
    PairsFirst(name + "=" + group, rest);
  }

  lemma CutApartAt(text: string, at: string) returns (head: string, tail: string)
    requires |at| == 1 && at[0] in text
    ensures text == head + (at + tail) && at[0] !in head
  {
    var i := Cutting.FirstCut(text, at[0]);
    assert text[..|text|] == text;
    head, tail := text[..i], text[i + 1..];
  }

  lemma CutGroup(group: string) returns (head: string, spilt: string)
    requires '&' in group
    ensures group == head + "&" + spilt && '&' !in head && |Decoded(head)| < |Decoded(group)|
  {
    head, spilt := CutApartAt(group, "&");
    Regrouped(head, "&", spilt);
    DecodedCut(head, spilt);
  }

  lemma CutText(start: string, head: string, spilt: string, rest: string)
    ensures start + (head + "&" + spilt) + "&" + rest == start + (head + "&" + (spilt + "&" + rest))
  {
  }

  lemma PieceCut(name: string, group: string, rest: string) returns (value: string)
    requires ParameterName(name) && '&' in group
    ensures |value| < |Decoded(group)|
    ensures Pairs(name + "=" + group) != [] && Pairs(name + "=" + group)[0] == (name, value)
    ensures Pairs(name + "=" + group + "&" + rest) != [] && Pairs(name + "=" + group + "&" + rest)[0] == (name, value)
  {
    var head, spilt := CutGroup(group);
    value := Decoded(head);
    SpiltPairs(name, head, spilt);
    SpiltPairs(name, head, spilt + "&" + rest);
    CutText(name + "=", head, spilt, rest);
  }

  lemma FilledText(names: seq<string>, groups: seq<string>)
    requires |names| == |groups| && names != []
    ensures Filled(names, groups) == names[0] + "=" + groups[0]
      + if |names| == 1 then "" else "&" + Filled(names[1..], groups[1..])
    ensures |names| == 1 ==> Filled(names, groups) == names[0] + "=" + groups[0]
    ensures |names| > 1 ==> Filled(names, groups) == names[0] + "=" + groups[0] + "&" + Filled(names[1..], groups[1..])
  {
    var piece := names[0] + "=" + groups[0];
    assert piece + "" == piece;
    Regrouped(piece, "&", Filled(names[1..], groups[1..]));
  }

  lemma OwnFirst(name: string, value: string, rest: seq<Pair>)
    requires name != ROUTE && name != PATH
    ensures Own([(name, value)] + rest) == [(name, value)] + Own(rest)
  {
    KeptFirst(ROUTE, name, value, rest);
    KeptFirst(PATH, name, value, Without(rest, ROUTE));
  }

  lemma KeptFirst(dropped: string, name: string, value: string, rest: seq<Pair>)
    requires name != dropped
    ensures Without([(name, value)] + rest, dropped) == [(name, value)] + Without(rest, dropped)
  {
    assert ([(name, value)] + rest)[1..] == rest;
  }

  /** Filled in, a query reads as each name with its group exactly where no group holds an `&`. */
  lemma {:induction false} FilledExactly(names: seq<string>, groups: seq<string>)
    requires |names| == |groups| && ParameterNames(names)
    ensures Own(Pairs(Filled(names, groups))) == Given(names, groups) <==> Uncut(groups)
    ensures Uncut(groups) ==> Pairs(Filled(names, groups)) == Given(names, groups)
  {
    if names == [] {
      NoPairs();
    } else {
      UncutFirst(groups);
      if '&' in groups[0] {
        CutFirst(names, groups);
      } else {
        UncutNext(names, groups);
        FilledExactly(names[1..], groups[1..]);
        SameBehindFirst((names[0], Decoded(groups[0])), Own(Pairs(Filled(names[1..], groups[1..]))),
          Given(names[1..], groups[1..]));
      }
    }
  }

  lemma SameBehindFirst(first: Pair, a: seq<Pair>, b: seq<Pair>)
    ensures [first] + a == [first] + b <==> a == b
  {
    assert ([first] + a)[1..] == a && ([first] + b)[1..] == b;
  }

  lemma UncutFirst(groups: seq<string>)
    requires groups != []
    ensures Uncut(groups) <==> '&' !in groups[0] && Uncut(groups[1..])
  {
    assert groups == [groups[0]] + groups[1..];
  }

  lemma FilledCut(names: seq<string>, groups: seq<string>) returns (value: string)
    requires |names| == |groups| && names != [] && ParameterNames(names) && '&' in groups[0]
    ensures |value| < |Decoded(groups[0])|
    ensures Pairs(Filled(names, groups)) != [] && Pairs(Filled(names, groups))[0] == (names[0], value)
  {
    value := PieceCut(names[0], groups[0], Filled(names[1..], groups[1..]));
    FilledText(names, groups);
  }

  lemma OwnApart(name: string, value: string, pairs: seq<Pair>, given: seq<Pair>)
    requires name != ROUTE && name != PATH && pairs != [] && pairs[0] == (name, value)
    requires given != [] && given[0].1 != value
    ensures Own(pairs) != given
  {
    assert pairs == [(name, value)] + pairs[1..];
    OwnFirst(name, value, pairs[1..]);
  }

  lemma GivenFirst(names: seq<string>, groups: seq<string>)
    requires |names| == |groups| && names != []
    ensures Given(names, groups) != [] && Given(names, groups)[0] == (names[0], Decoded(groups[0]))
  {
  }

  lemma CutFirst(names: seq<string>, groups: seq<string>)
    requires |names| == |groups| && names != [] && ParameterNames(names) && '&' in groups[0]
    ensures Own(Pairs(Filled(names, groups))) != Given(names, groups)
  {
    var value := FilledCut(names, groups);
    GivenFirst(names, groups);
    OwnApart(names[0], value, Pairs(Filled(names, groups)), Given(names, groups));
  }

  lemma UncutNext(names: seq<string>, groups: seq<string>)
    requires |names| == |groups| && names != [] && ParameterNames(names) && '&' !in groups[0]
    ensures var first, rest := (names[0], Decoded(groups[0])), Pairs(Filled(names[1..], groups[1..]));
      && Pairs(Filled(names, groups)) == [first] + rest
      && Given(names, groups) == [first] + Given(names[1..], groups[1..])
      && Own(Pairs(Filled(names, groups))) == [first] + Own(rest)
  {
    FilledText(names, groups);
    PieceUncut(names[0], groups[0], Filled(names[1..], groups[1..]));
    OwnFirst(names[0], Decoded(groups[0]), Pairs(Filled(names[1..], groups[1..])));
    if |names| == 1 {
      NoPairs();
    }
  }

  lemma SameAhead(a: seq<Pair>, b: seq<Pair>, rest: seq<Pair>)
    ensures a + rest == b + rest <==> a == b
  {
    assert a + rest == b + rest ==> |a| == |b|;
    assert |a| == |b| && a + rest == b + rest ==> (a + rest)[..|a|] == (b + rest)[..|b|];
    assert (a + rest)[..|a|] == a && (b + rest)[..|b|] == b;
  }

  /** The groups of a rule whose pattern has one for each name. */
  predicate GroupFor(names: seq<string>, src: string) {
    Read(src).Some? && GroupCount(Read(src).value) == |names|
  }

  /** What a segment rewrite of parameters hands its route, its groups written into its query. */
  function GivenUrl(route: string, filled: seq<Pair>, caller: seq<Pair>): Url {
    Url(ApiPath(CarriedOr(First(filled + caller, PATH), route)), Own(filled) + Own(caller))
  }

  /**
   * A segment rewrite that reads its groups into parameters hands its route each of them, decoded, ahead of the
   * caller's own pairs, exactly where no group holds an `&`; and then at the route's own path, unless the caller's
   * query carries another. Behind an `&` a group spills pairs of its own, one of which may carry the path.
   */
  lemma ParametersServe(s: Sources, names: seq<string>, path: string, caller: seq<Pair>)
    requires Generated(s).Ok? && OwnFiles(s.definitions) && MeaningOf(s, path).BySegment?
    requires 0 < |names| <= 9 && ParameterNames(names)
    requires var segment := MeaningOf(s, path).segment;
      && segment.query == Parameters(names, 1) && GroupFor(names, segment.src)
      && Plain(segment.route) && segment.route != ORPC
      && FunctionOf(s.definitions, segment.route).Some? && FunctionOf(s.definitions, segment.route).value.dispatches
    ensures SegmentTakes(MeaningOf(s, path).segment, path)
    ensures var groups := Groups(Read(MeaningOf(s, path).segment.src).value, path).value; |groups| == |names|
    ensures var route, carried := MeaningOf(s, path).segment.route, First(caller, PATH);
      var groups := Groups(Read(MeaningOf(s, path).segment.src).value, path).value;
      var filled := Pairs(Filled(names, groups));
      && Served(s.definitions, Generated(s).value, path, caller) == Some(Handed(route, GivenUrl(route, filled, caller)))
      && (GivenUrl(route, filled, caller).pairs == Given(names, groups) + Own(caller) <==> Uncut(groups))
      && (Uncut(groups) ==> GivenUrl(route, filled, caller).path == ApiPath(CarriedOr(carried, route)))
  {
    var segment := MeaningOf(s, path).segment;
    var route := segment.route;
    var d := FunctionOf(s.definitions, route).value;
    var rule := Rewrite(segment.src, Dest(d, route, Some(Parameters(names, 1))));
    TableLands(s, path);
    HolderListed(s.definitions, route);
    var groups := FilledServed(s.definitions, Generated(s).value, path, caller, rule, d, route, names);
    GivenDispatched(set held <- d.routes :: held, "/" + PublicPath(d), route, Pairs(Filled(names, groups)), caller);
    GivenExactly(route, names, groups, caller);
  }

  lemma GivenDispatched(held: set<string>, file: string, route: string, filled: seq<Pair>, caller: seq<Pair>)
    requires route in held && route != ORPC
    ensures Dispatched(held, Url(file, [(ROUTE, route)] + filled + caller))
      == Handed(route, GivenUrl(route, filled, caller))
  {
    DispatchedOn(held, file, route, filled, caller);
  }

  /** Where a rule of parameters lands a request: the groups written in, each behind its name. */
  lemma FilledServed(
    definitions: seq<Definition>, table: seq<Rewrite>, path: string, caller: seq<Pair>, rule: Rewrite, d: Definition,
    route: string, names: seq<string>
  ) returns (groups: seq<string>)
    requires LandingRule(path, table) == Some(rule) && 0 < |names| <= 9 && ParameterNames(names)
    requires rule.dest == Dest(d, route, Some(Parameters(names, 1))) && GroupFor(names, rule.src)
    requires d in definitions && d.dispatches && OwnFiles(definitions) && Plain(route)
    ensures Takes(rule, path) && Groups(Read(rule.src).value, path) == Some(groups) && |groups| == |names|
    ensures Served(definitions, table, path, caller)
      == Some(Dispatched(set held <- d.routes :: held,
                         Url("/" + PublicPath(d), [(ROUTE, route)] + Pairs(Filled(names, groups)) + caller)))
  {
    var query := Some(Parameters(names, 1));
    ServedBy(definitions, table, path, caller, rule, d, route, query);
    LandedOn(path, caller, rule, d, route, query);
    groups := GroupsCounted(rule.src, path);
    ParametersWritten(names, 1, groups, path);
    assert groups[0..] == groups;
  }

  lemma GroupsCounted(src: string, path: string) returns (groups: seq<string>)
    requires Read(src).Some? && Matches(Read(src).value, path)
    ensures Groups(Read(src).value, path) == Some(groups) && |groups| == GroupCount(Read(src).value)
  {
    groups := Groups(Read(src).value, path).value;
    GroupsFit(Read(src).value, path);
    FitsCount(Read(src).value, groups, path);
  }

  lemma GivenExactly(route: string, names: seq<string>, groups: seq<string>, caller: seq<Pair>)
    requires |names| == |groups| && names != [] && ParameterNames(names)
    ensures var url := GivenUrl(route, Pairs(Filled(names, groups)), caller);
      && (url.pairs == Given(names, groups) + Own(caller) <==> Uncut(groups))
      && (Uncut(groups) ==> url.path == ApiPath(CarriedOr(First(caller, PATH), route)))
  {
    var filled := Pairs(Filled(names, groups));
    FilledExactly(names, groups);
    SameAhead(Own(filled), Given(names, groups), Own(caller));
    if Uncut(groups) {
      GivenKept(names, groups, PATH);
      FirstConcat(filled, caller, PATH);
    }
  }

  lemma PlantedPairs(name: string, group: string, planted: string)
    requires ParameterName(name) && '&' !in group && '&' !in planted
    ensures Pairs(name + "=" + (group + "&" + (PATH + "=" + planted)))
      == [(name, Decoded(group))] + [(PATH, Decoded(planted))]
  {
    SpiltPairs(name, group, PATH + "=" + planted);
    PathName();
    CarriedPairs(PATH, planted);
  }

  lemma PlantedFirst(name: string, value: string, planted: string, caller: seq<Pair>)
    requires name != ROUTE && name != PATH
    ensures var filled := [(name, value)] + [(PATH, planted)];
      && First(filled + caller, PATH) == Some(planted) && Own(filled) == [(name, value)]
  {
    var filled: seq<Pair> := [(name, value)] + [(PATH, planted)];
    assert filled[1..] == [(PATH, planted)] && filled[0] == (name, value);
    FirstConcat(filled, caller, PATH);
    OwnFirst(name, value, [(PATH, planted)]);
    PathFirst(planted, []);
    assert [(PATH, planted)] + [] == [(PATH, planted)];
    assert [(name, value)] + [] == [(name, value)];
  }

  /**
   * An `&` in the segment a rewrite reads plants a pair: what follows it is taken for the dispatcher's own, and moves
   * the path its route is handed.
   */
  lemma PlantedServes(
    s: Sources, name: string, group: string, planted: string, path: string, caller: seq<Pair>
  )
    requires Generated(s).Ok? && OwnFiles(s.definitions) && MeaningOf(s, path).BySegment?
    requires ParameterName(name) && name != ROUTE && name != PATH && '&' !in group && '&' !in planted
    requires var segment := MeaningOf(s, path).segment;
      && segment.query == Parameters([name], 1) && GroupFor([name], segment.src)
      && Groups(Read(segment.src).value, path) == Some([group + "&" + (PATH + "=" + planted)])
      && Plain(segment.route) && segment.route != ORPC
      && FunctionOf(s.definitions, segment.route).Some? && FunctionOf(s.definitions, segment.route).value.dispatches
    ensures Served(s.definitions, Generated(s).value, path, caller)
      == Some(Handed(MeaningOf(s, path).segment.route,
                     Url(ApiPath(Decoded(planted)), [(name, Decoded(group))] + Own(caller))))
  {
    ParametersServe(s, [name], path, caller);
    FilledText([name], [group + "&" + (PATH + "=" + planted)]);
    PlantedPairs(name, group, planted);
    PlantedFirst(name, Decoded(group), Decoded(planted), caller);
  }

  // ---- public paths ----

  /**
   * A public path that names its route alone reaches that route, at the route's own path, unless the caller's query
   * carries another.
   */
  lemma PublicServes(s: Sources, path: string, caller: seq<Pair>)
    requires Generated(s).Ok? && OwnFiles(s.definitions) && MeaningOf(s, path).ByPublic?
    requires var public := MeaningOf(s, path).public;
      && public.query == None && Plain(public.route) && public.route != ORPC
      && FunctionOf(s.definitions, public.route).Some? && FunctionOf(s.definitions, public.route).value.dispatches
    ensures var route, carried := MeaningOf(s, path).public.route, First(caller, PATH);
      Served(s.definitions, Generated(s).value, path, caller)
      == Some(Handed(route, Url(ApiPath(CarriedOr(carried, route)), Own(caller))))
  {
    var route := MeaningOf(s, path).public.route;
    var d := FunctionOf(s.definitions, route).value;
    var rule := Rewrite(ExactPattern(path), Dest(d, route, None));
    TableLands(s, path);
    HolderListed(s.definitions, route);
    ServedBy(s.definitions, Generated(s).value, path, caller, rule, d, route, None);
    RouteDispatched(set held <- d.routes :: held, path, caller, rule, d, route);
  }

  /**
   * One that carries a path of its own reaches its route at that path, whatever the caller's query says: exactly as it
   * is written where it comes back out of a query so.
   */
  lemma PublicCarries(s: Sources, path: string, caller: seq<Pair>, carried: string)
    requires Generated(s).Ok? && OwnFiles(s.definitions) && MeaningOf(s, path).ByPublic?
    requires var public := MeaningOf(s, path).public;
      && public.query == Some(PATH + "=" + carried) && Plain(public.route)
      && FunctionOf(s.definitions, public.route).Some? && FunctionOf(s.definitions, public.route).value.dispatches
    requires Held(carried) && '$' !in carried
    ensures Served(s.definitions, Generated(s).value, path, caller)
      == Some(Handed(MeaningOf(s, path).public.route,
                     Url(ApiPath(ReadBack(carried)), Own(Pairs(Spilt(carried))) + Own(caller))))
    ensures '&' !in carried ==> Own(Pairs(Spilt(carried))) + Own(caller) == Own(caller)
    ensures ApiPath(ReadBack(carried)) == API + carried
      <==> '&' !in carried && Kept(carried) && Dotless(Segments(API + carried))
  {
    var route := MeaningOf(s, path).public.route;
    var d := FunctionOf(s.definitions, route).value;
    var query := Some(PATH + "=" + carried);
    var rule := Rewrite(ExactPattern(path), Dest(d, route, query));
    TableLands(s, path);
    HolderListed(s.definitions, route);
    ServedBy(s.definitions, Generated(s).value, path, caller, rule, d, route, query);
    LandedOn(path, caller, rule, d, route, query);
    QueryWritten(carried, path, Groups(Read(rule.src).value, path).value);
    CarriedDispatched(set held <- d.routes :: held, "/" + PublicPath(d), route, carried, caller);
    ReadBackExactly(carried);
  }

  lemma QueryWritten(carried: string, path: string, groups: seq<string>)
    requires '$' !in carried
    ensures Written(PATH + "=" + carried, path, groups) == PATH + "=" + carried
  {
    var text := PATH + "=" + carried;
    WrittenPlain(text, "", path, groups);
    assert text + "" == text;
  }
}
