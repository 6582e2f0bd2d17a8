/** The functions a deployment carries: every route in exactly one of them. */
module Functions {
  import opened Basics
  import opened Rewrites

  datatype Group = Group(file: string, routes: seq<string>)

  /** The groups, the routes that stand alone, and the queues' consumers. */
  datatype Layout = Layout(groups: seq<Group>, standalone: seq<string>, consumers: seq<Definition>)

  const DEFAULT_FILE := "default"

  function GroupRoutes(groups: seq<Group>): seq<string> {
    if groups == [] then [] else groups[0].routes + GroupRoutes(groups[1..])
  }

  /** Every route the definitions list, in their order. */
  function RoutesOf(definitions: seq<Definition>): seq<string> {
    if definitions == [] then [] else definitions[0].routes + RoutesOf(definitions[1..])
  }

  function Claimed(layout: Layout): seq<string> {
    GroupRoutes(layout.groups) + layout.standalone + RoutesOf(layout.consumers)
  }

  function Unclaimed(keys: seq<string>, claimed: seq<string>): seq<string> {
    if keys == [] then []
    else (if keys[0] in claimed then [] else [keys[0]]) + Unclaimed(keys[1..], claimed)
  }

  function Grouped(groups: seq<Group>): seq<Definition> {
    if groups == [] then []
    else [Definition(groups[0].file, groups[0].routes, true, None)] + Grouped(groups[1..])
  }

  function Alone(standalone: seq<string>): seq<Definition> {
    if standalone == [] then []
    else [Definition(standalone[0], [standalone[0]], false, None)] + Alone(standalone[1..])
  }

  /** Sorted by file, by whatever order the collation gives names. */
  function Placed(d: Definition, sorted: seq<Definition>, upTo: (string, string) -> bool): seq<Definition> {
    if sorted == [] || upTo(d.file, sorted[0].file) then [d] + sorted
    else [sorted[0]] + Placed(d, sorted[1..], upTo)
  }

  function SortedByFile(definitions: seq<Definition>, upTo: (string, string) -> bool): seq<Definition> {
    if definitions == [] then [] else Placed(definitions[0], SortedByFile(definitions[1..], upTo), upTo)
  }

  function Listed(keys: seq<string>, layout: Layout): seq<Definition> {
    [Definition(DEFAULT_FILE, Unclaimed(keys, Claimed(layout)) + [ORPC], true, None)]
    + Grouped(layout.groups) + Alone(layout.standalone) + layout.consumers
  }

  datatype Misnamed = Misnamed

  /** `functionDefinitions`: refused where a file takes the hosted route's key. */
  function FunctionDefinitions(keys: seq<string>, layout: Layout, upTo: (string, string) -> bool)
    : Result<seq<Definition>, Misnamed>
  {
    if ORPC in keys then Err(Misnamed) else Ok(SortedByFile(Listed(keys, layout), upTo))
  }

  // ---- each route once ----

  lemma {:induction false} RoutesConcat(a: seq<Definition>, b: seq<Definition>)
    ensures RoutesOf(a + b) == RoutesOf(a) + RoutesOf(b)
  {
    if a == [] {
      assert a + b == b;
    } else {
      assert (a + b)[0] == a[0] && (a + b)[1..] == a[1..] + b;
      RoutesConcat(a[1..], b);
    }
  }

  lemma {:induction false} PlacedAll(d: Definition, sorted: seq<Definition>, upTo: (string, string) -> bool)
    ensures multiset(Placed(d, sorted, upTo)) == multiset{d} + multiset(sorted)
  {
    if sorted != [] && !upTo(d.file, sorted[0].file) {
      PlacedAll(d, sorted[1..], upTo);
      assert sorted == [sorted[0]] + sorted[1..];
    }
  }

  lemma RoutesOfFirst(first: Definition, rest: seq<Definition>)
    ensures RoutesOf([first] + rest) == first.routes + RoutesOf(rest)
  {
    assert ([first] + rest)[1..] == rest;
  }

  lemma {:induction false} PlacedRoutes(d: Definition, sorted: seq<Definition>, upTo: (string, string) -> bool)
    ensures multiset(RoutesOf(Placed(d, sorted, upTo))) == multiset(d.routes) + multiset(RoutesOf(sorted))
  {
    if sorted == [] || upTo(d.file, sorted[0].file) {
      RoutesOfFirst(d, sorted);
    } else {
      var first, rest := sorted[0], sorted[1..];
      PlacedRoutes(d, rest, upTo);
      RoutesOfFirst(first, Placed(d, rest, upTo));
      assert RoutesOf(sorted) == first.routes + RoutesOf(rest);
    }
  }

  lemma {:induction false} SortingKeeps(definitions: seq<Definition>, upTo: (string, string) -> bool)
    ensures multiset(RoutesOf(SortedByFile(definitions, upTo))) == multiset(RoutesOf(definitions))
    ensures multiset(SortedByFile(definitions, upTo)) == multiset(definitions)
  {
    if definitions != [] {
      SortingKeeps(definitions[1..], upTo);
      PlacedAll(definitions[0], SortedByFile(definitions[1..], upTo), upTo);
      PlacedRoutes(definitions[0], SortedByFile(definitions[1..], upTo), upTo);
      assert definitions == [definitions[0]] + definitions[1..];
    }
  }

  /** An order that names can be sorted by: of any two, one goes up to the other, and on through a third. */
  ghost predicate Orders(upTo: (string, string) -> bool) {
    && (forall a, b {:trigger upTo(a, b)} :: upTo(a, b) || upTo(b, a))
    && (forall a, b, c {:trigger upTo(a, b), upTo(b, c)} :: upTo(a, b) && upTo(b, c) ==> upTo(a, c))
  }

  predicate InOrder(definitions: seq<Definition>, upTo: (string, string) -> bool) {
    forall i, j :: 0 <= i < j < |definitions| ==> upTo(definitions[i].file, definitions[j].file)
  }

  lemma {:induction false} PlacedInOrder(d: Definition, sorted: seq<Definition>, upTo: (string, string) -> bool)
    requires Orders(upTo) && InOrder(sorted, upTo)
    ensures InOrder(Placed(d, sorted, upTo), upTo)
  {
    if sorted == [] {
    } else if upTo(d.file, sorted[0].file) {
      forall j | 0 <= j < |sorted| ensures upTo(d.file, sorted[j].file) {
        assert j > 0 ==> upTo(sorted[0].file, sorted[j].file);
      }
    } else {
      var first, rest := sorted[0], sorted[1..];
      assert InOrder(rest, upTo);
      PlacedInOrder(d, rest, upTo);
      PlacedAll(d, rest, upTo);
      var placed := Placed(d, rest, upTo);
      forall j | 0 <= j < |placed| ensures upTo(first.file, placed[j].file) {
        assert placed[j] in multiset(placed);
        assert placed[j] == d || placed[j] in rest;
        if placed[j] != d {
          var k :| 0 <= k < |rest| && rest[k] == placed[j];
          assert sorted[k + 1] == rest[k];
        }
      }
    }
  }

  /** The functions stand in their files' order, whatever order it is, so what is written from them always agrees. */
  lemma {:induction false} SortedInOrder(definitions: seq<Definition>, upTo: (string, string) -> bool)
    requires Orders(upTo)
    ensures InOrder(SortedByFile(definitions, upTo), upTo)
  {
    if definitions != [] {
      SortedInOrder(definitions[1..], upTo);
      PlacedInOrder(definitions[0], SortedByFile(definitions[1..], upTo), upTo);
    }
  }

  lemma {:induction false} GroupedRoutes(groups: seq<Group>)
    ensures RoutesOf(Grouped(groups)) == GroupRoutes(groups)
  {
    if groups != [] {
      GroupedRoutes(groups[1..]);
    }
  }

  lemma {:induction false} AloneRoutes(standalone: seq<string>)
    ensures RoutesOf(Alone(standalone)) == standalone
  {
    if standalone != [] {
      AloneRoutes(standalone[1..]);
    }
  }

  lemma {:induction false} UnclaimedCounts(keys: seq<string>, claimed: seq<string>, key: string)
    ensures multiset(Unclaimed(keys, claimed))[key] == if key in claimed then 0 else multiset(keys)[key]
  {
    if keys != [] {
      UnclaimedCounts(keys[1..], claimed, key);
      assert keys == [keys[0]] + keys[1..];
    }
  }

  lemma ListedInOrder(keys: seq<string>, layout: Layout)
    ensures RoutesOf(Listed(keys, layout)) == Unclaimed(keys, Claimed(layout)) + [ORPC] + Claimed(layout)
  {
    var grouped, alone, rest := Grouped(layout.groups), Alone(layout.standalone), layout.consumers;
    var first := Definition(DEFAULT_FILE, Unclaimed(keys, Claimed(layout)) + [ORPC], true, None);
    calc {
      RoutesOf(Listed(keys, layout));
      { RoutesConcat([first] + grouped + alone, rest); }
      RoutesOf([first] + grouped + alone) + RoutesOf(rest);
      { RoutesConcat([first] + grouped, alone); AloneRoutes(layout.standalone); }
      RoutesOf([first] + grouped) + layout.standalone + RoutesOf(rest);
      { assert ([first] + grouped)[1..] == grouped; GroupedRoutes(layout.groups); }
      first.routes + GroupRoutes(layout.groups) + layout.standalone + RoutesOf(rest);
      first.routes + Claimed(layout);
    }
  }

  lemma ListedRoutes(keys: seq<string>, layout: Layout)
    ensures multiset(RoutesOf(Listed(keys, layout)))
      == multiset(Unclaimed(keys, Claimed(layout))) + multiset{ORPC} + multiset(Claimed(layout))
  {
    ListedInOrder(keys, layout);
  }

  /**
   * How often a route is listed: a claimed one as often as it is claimed, any other as often as it is a key, the hosted
   * one once more.
   */
  lemma RoutesCounted(keys: seq<string>, layout: Layout, upTo: (string, string) -> bool, route: string)
    requires FunctionDefinitions(keys, layout, upTo).Ok?
    ensures multiset(RoutesOf(FunctionDefinitions(keys, layout, upTo).value))[route]
      == multiset(Claimed(layout))[route] + (if route in Claimed(layout) then 0 else multiset(keys)[route])
         + (if route == ORPC then 1 else 0)
  {
    SortingKeeps(Listed(keys, layout), upTo);
    ListedRoutes(keys, layout);
    UnclaimedCounts(keys, Claimed(layout), route);
  }

  /**
   * With keys and claims each said once, every key and every claim is in exactly one function, and so is the hosted
   * route.
   */
  lemma Partitioned(keys: seq<string>, layout: Layout, upTo: (string, string) -> bool)
    requires FunctionDefinitions(keys, layout, upTo).Ok?
    requires NoRepeat(multiset(keys)) && NoRepeat(multiset(Claimed(layout))) && ORPC !in Claimed(layout)
    ensures var routes := multiset(RoutesOf(FunctionDefinitions(keys, layout, upTo).value));
      && NoRepeat(routes)
      && forall route :: route in routes <==> route in keys || route in Claimed(layout) || route == ORPC
  {
    var routes := multiset(RoutesOf(FunctionDefinitions(keys, layout, upTo).value));
    forall route
      ensures routes[route] <= 1 && (route in routes <==> route in keys || route in Claimed(layout) || route == ORPC)
    {
      RoutesCounted(keys, layout, upTo, route);
      assert multiset(keys)[route] <= 1 && multiset(Claimed(layout))[route] <= 1;
      assert route in multiset(keys) <==> route in keys;
      assert route in multiset(Claimed(layout)) <==> route in Claimed(layout);
    }
  }

  // ---- what follows for looking a route up ----

  lemma {:induction false} HolderFound(definitions: seq<Definition>, d: Definition, route: string)
    requires NoRepeat(multiset(RoutesOf(definitions)))
    requires d in definitions && route in d.routes
    ensures FunctionOf(definitions, route) == Some(d)
  {
    var first, later := definitions[0], definitions[1..];
    var all := multiset(RoutesOf(definitions));
    assert definitions == [first] + later;
    assert all == multiset(first.routes) + multiset(RoutesOf(later));
    assert NoRepeat(multiset(RoutesOf(later))) by {
      forall x ensures multiset(RoutesOf(later))[x] <= 1 {
        assert all[x] <= 1;
      }
    }
    if d in later {
      HolderFound(later, d, route);
    } else {
      assert route in multiset(first.routes) && all[route] <= 1;
      assert route !in multiset(RoutesOf(later));
      HolderListed(later, route);
    }
  }

  lemma {:induction false} HolderNone(definitions: seq<Definition>, route: string)
    requires forall j :: 0 <= j < |definitions| ==> route !in definitions[j].routes
    ensures FunctionOf(definitions, route) == None
  {
    if definitions != [] {
      HolderNone(definitions[1..], route);
    }
  }

  /** Where several functions list a route, a lookup finds the last that does. */
  lemma {:induction false} HolderLast(definitions: seq<Definition>, i: nat, route: string)
    requires i < |definitions| && route in definitions[i].routes
    requires forall j :: i < j < |definitions| ==> route !in definitions[j].routes
    ensures FunctionOf(definitions, route) == Some(definitions[i])
  {
    if i == 0 {
      HolderNone(definitions[1..], route);
    } else {
      HolderLast(definitions[1..], i - 1, route);
    }
  }

  lemma {:induction false} HolderListed(definitions: seq<Definition>, route: string)
    ensures FunctionOf(definitions, route).Some? <==> route in RoutesOf(definitions)
    ensures FunctionOf(definitions, route).Some? ==>
      FunctionOf(definitions, route).value in definitions && route in FunctionOf(definitions, route).value.routes
  {
    if definitions != [] {
      HolderListed(definitions[1..], route);
      assert definitions == [definitions[0]] + definitions[1..];
    }
  }
}
