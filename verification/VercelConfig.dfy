/** The deployment's configuration assembled from the committed table, and the check that neither half has drifted. */
module VercelConfig {
  import opened Basics
  import opened Patterns
  import opened Rewrites
  import opened Landing
  import opened RoutingTheorems

  /** A route of the web service: its pattern, whether it is held to one host, and whatever else it says. */
  datatype WebRoute = WebRoute(src: string, hostLocked: bool, rest: string)

  /** What marks a generated entry beside `/api/`: the proxy's prefix, and the public paths' patterns. */
  datatype Marks = Marks(proxy: string, publics: set<string>)

  predicate IsTableRewrite(marks: Marks, src: string) {
    API <= src || marks.proxy <= src || src in marks.publics
  }

  predicate FromTable(marks: Marks, route: WebRoute) {
    IsTableRewrite(marks, route.src)
  }

  datatype Kind = FromRoutes | Locked | Open

  function KindOf(marks: Marks, route: WebRoute): Kind {
    if FromTable(marks, route) then FromRoutes else if route.hostLocked then Locked else Open
  }

  /** The routes of one kind, in their order. */
  function Of(marks: Marks, routes: seq<WebRoute>, kind: Kind): seq<WebRoute> {
    if routes == [] then []
    else (if KindOf(marks, routes[0]) == kind then [routes[0]] else []) + Of(marks, routes[1..], kind)
  }

  /** `vercelConfigSource`'s routes. */
  function Assembled(marks: Marks, routes: seq<WebRoute>, table: seq<WebRoute>): seq<WebRoute> {
    Of(marks, routes, Locked) + table + Of(marks, routes, Open)
  }

  predicate Drifted(marks: Marks, routes: seq<WebRoute>, table: seq<WebRoute>, generated: seq<WebRoute>) {
    table != generated || Of(marks, routes, FromRoutes) != table
  }

  predicate AllMarked(marks: Marks, table: seq<WebRoute>) {
    forall i :: 0 <= i < |table| ==> FromTable(marks, table[i])
  }

  lemma {:induction false} OfConcat(marks: Marks, a: seq<WebRoute>, b: seq<WebRoute>, kind: Kind)
    ensures Of(marks, a + b, kind) == Of(marks, a, kind) + Of(marks, b, kind)
  {
    if a == [] {
      assert a + b == b;
    } else {
      assert (a + b)[0] == a[0] && (a + b)[1..] == a[1..] + b;
      OfConcat(marks, a[1..], b, kind);
    }
  }

  lemma {:induction false} OfOf(marks: Marks, routes: seq<WebRoute>, kind: Kind, again: Kind)
    ensures Of(marks, Of(marks, routes, kind), again) == if again == kind then Of(marks, routes, kind) else []
    ensures forall i :: 0 <= i < |Of(marks, routes, kind)| ==> KindOf(marks, Of(marks, routes, kind)[i]) == kind
  {
    if routes != [] {
      var first := if KindOf(marks, routes[0]) == kind then [routes[0]] else [];
      OfOf(marks, routes[1..], kind, again);
      OfConcat(marks, first, Of(marks, routes[1..], kind), again);
    }
  }

  lemma AssembledOf(marks: Marks, routes: seq<WebRoute>, table: seq<WebRoute>, kind: Kind)
    ensures Of(marks, Assembled(marks, routes, table), kind) == match kind
      case FromRoutes => Of(marks, table, FromRoutes)
      case Locked => Of(marks, routes, Locked) + Of(marks, table, Locked)
      case Open => Of(marks, table, Open) + Of(marks, routes, Open)
  {
    var locked, others := Of(marks, routes, Locked), Of(marks, routes, Open);
    OfConcat(marks, locked + table, others, kind);
    OfConcat(marks, locked, table, kind);
    OfOf(marks, routes, Locked, kind);
    OfOf(marks, routes, Open, kind);
    Around(Of(marks, table, kind), if kind == Locked then locked else [], if kind == Open then others else []);
  }

  lemma Around(middle: seq<WebRoute>, before: seq<WebRoute>, after: seq<WebRoute>)
    ensures before == [] ==> before + middle + after == middle + after
    ensures after == [] ==> before + middle + after == before + middle
    ensures before == [] && after == [] ==> before + middle + after == middle
  {
  }

  /** How many routes of each kind there are adds up. */
  lemma {:induction false} KindsAddUp(marks: Marks, routes: seq<WebRoute>)
    ensures multiset(routes)
      == multiset(Of(marks, routes, FromRoutes)) + multiset(Of(marks, routes, Locked))
         + multiset(Of(marks, routes, Open))
  {
    if routes != [] {
      assert routes == [routes[0]] + routes[1..];
      KindsAddUp(marks, routes[1..]);
    }
  }

  lemma {:induction false} MarkedWhole(marks: Marks, table: seq<WebRoute>)
    ensures AllMarked(marks, table) <==> Of(marks, table, FromRoutes) == table
    ensures AllMarked(marks, table) <==> Of(marks, table, Locked) + Of(marks, table, Open) == []
    ensures |Of(marks, table, FromRoutes)| + |Of(marks, table, Locked)| + |Of(marks, table, Open)| == |table|
  {
    if table != [] {
      MarkedWhole(marks, table[1..]);
      assert table == [table[0]] + table[1..];
      assert AllMarked(marks, table) <==> FromTable(marks, table[0]) && AllMarked(marks, table[1..]);
    }
  }

  /** Every other route is kept, once and among its own kind in its order, whatever the table. */
  lemma OthersKept(marks: Marks, routes: seq<WebRoute>, table: seq<WebRoute>)
    requires AllMarked(marks, table)
    ensures var assembled := Assembled(marks, routes, table);
      && Of(marks, assembled, Locked) == Of(marks, routes, Locked)
      && Of(marks, assembled, Open) == Of(marks, routes, Open)
      && multiset(assembled) + multiset(Of(marks, routes, FromRoutes)) == multiset(table) + multiset(routes)
  {
    var locked, others := Of(marks, routes, Locked), Of(marks, routes, Open);
    AssembledOf(marks, routes, table, Locked);
    AssembledOf(marks, routes, table, Open);
    MarkedNone(marks, table);
    assert locked + [] == locked && [] + others == others;
    KindsAddUp(marks, routes);
    assert multiset(locked + table + others) == multiset(locked + table) + multiset(others);
    assert multiset(locked + table) == multiset(locked) + multiset(table);
  }

  lemma MarkedNone(marks: Marks, table: seq<WebRoute>)
    requires AllMarked(marks, table)
    ensures Of(marks, table, Locked) == [] && Of(marks, table, Open) == []
  {
    MarkedWhole(marks, table);
    assert |Of(marks, table, Locked) + Of(marks, table, Open)| == 0;
  }

  lemma AssembledKind(marks: Marks, routes: seq<WebRoute>, table: seq<WebRoute>, k: nat)
    requires AllMarked(marks, table) && k < |Assembled(marks, routes, table)|
    ensures KindOf(marks, Assembled(marks, routes, table)[k])
      == var n := |Of(marks, routes, Locked)|; if k < n then Locked else if k < n + |table| then FromRoutes else Open
  {
    var locked, others := Of(marks, routes, Locked), Of(marks, routes, Open);
    var assembled := Assembled(marks, routes, table);
    if k < |locked| {
      OfOf(marks, routes, Locked, Locked);
      assert assembled[k] == locked[k];
    } else if k < |locked| + |table| {
      assert assembled[k] == table[k - |locked|];
    } else {
      OfOf(marks, routes, Open, Open);
      assert assembled[k] == others[k - |locked| - |table|];
    }
  }

  /** Nothing of the table, and no route open to every host, stands ahead of a host's own. */
  lemma LockedFirst(marks: Marks, routes: seq<WebRoute>, table: seq<WebRoute>, i: nat, j: nat)
    requires AllMarked(marks, table) && i < j < |Assembled(marks, routes, table)|
    ensures var one, later := Assembled(marks, routes, table)[i], Assembled(marks, routes, table)[j];
      && (!FromTable(marks, later) && later.hostLocked ==> !FromTable(marks, one) && one.hostLocked)
      && (!FromTable(marks, one) && !one.hostLocked ==> !FromTable(marks, later) && !later.hostLocked)
  {
    AssembledKind(marks, routes, table, i);
    AssembledKind(marks, routes, table, j);
  }

  /** Assembling again changes nothing, exactly when every entry of the table is known for one. */
  lemma AssembledAgain(marks: Marks, routes: seq<WebRoute>, table: seq<WebRoute>)
    ensures Assembled(marks, Assembled(marks, routes, table), table) == Assembled(marks, routes, table)
      <==> AllMarked(marks, table)
  {
    var once := Assembled(marks, routes, table);
    AssembledOf(marks, routes, table, Locked);
    AssembledOf(marks, routes, table, Open);
    MarkedWhole(marks, table);
    assert |Assembled(marks, once, table)| == |once| + |Of(marks, table, Locked)| + |Of(marks, table, Open)|;
    if AllMarked(marks, table) {
      var locked, others := Of(marks, table, Locked), Of(marks, table, Open);
      assert locked == [] && others == [];
      assert Of(marks, routes, Locked) + locked == Of(marks, routes, Locked);
      assert others + Of(marks, routes, Open) == Of(marks, routes, Open);
    }
  }

  /**
   * The check passes a file just assembled exactly when the table is what the routes generate and every entry is known
   * for one.
   */
  lemma AssembledChecks(marks: Marks, routes: seq<WebRoute>, table: seq<WebRoute>, generated: seq<WebRoute>)
    ensures !Drifted(marks, Assembled(marks, routes, table), table, generated)
      <==> table == generated && AllMarked(marks, table)
  {
    AssembledOf(marks, routes, table, FromRoutes);
    MarkedWhole(marks, table);
  }

  /**
   * The check passes a file exactly when the table is what the routes generate and assembling the file again would
   * leave the routes of each kind as they are, for any file, however it came about.
   */
  lemma DriftedExactly(marks: Marks, routes: seq<WebRoute>, table: seq<WebRoute>, generated: seq<WebRoute>)
    requires AllMarked(marks, table)
    ensures !Drifted(marks, routes, table, generated)
      <==> table == generated
           && forall kind :: Of(marks, Assembled(marks, routes, table), kind) == Of(marks, routes, kind)
  {
    AssembledOf(marks, routes, table, FromRoutes);
    MarkedWhole(marks, table);
    OthersKept(marks, routes, table);
    forall kind ensures kind != FromRoutes ==>
      Of(marks, Assembled(marks, routes, table), kind) == Of(marks, routes, kind) {
    }
  }

  lemma OfOne(marks: Marks, route: WebRoute)
    ensures Of(marks, [route], FromRoutes) == if FromTable(marks, route) then [route] else []
  {
    assert [route][1..] == [];
  }

  lemma OfAround(marks: Marks, before: seq<WebRoute>, route: WebRoute, after: seq<WebRoute>)
    requires FromTable(marks, route)
    ensures Of(marks, before + [route] + after, FromRoutes)
      == Of(marks, before, FromRoutes) + [route] + Of(marks, after, FromRoutes)
  {
    OfConcat(marks, before + [route], after, FromRoutes);
    OfConcat(marks, before, [route], FromRoutes);
    OfOne(marks, route);
  }

  /** In a file that passes, an entry changed, missing or doubled is drift. */
  lemma EntryDrifts(
    marks: Marks, before: seq<WebRoute>, entry: WebRoute, after: seq<WebRoute>, other: WebRoute, table: seq<WebRoute>,
    generated: seq<WebRoute>
  )
    requires FromTable(marks, entry) && !Drifted(marks, before + [entry] + after, table, generated)
    ensures FromTable(marks, other) && other != entry ==>
      Drifted(marks, before + [other] + after, table, generated)
    ensures Drifted(marks, before + after, table, generated)
    ensures Drifted(marks, before + [entry] + ([entry] + after), table, generated)
  {
    var a, b := Of(marks, before, FromRoutes), Of(marks, after, FromRoutes);
    OfAround(marks, before, entry, after);
    assert table == a + [entry] + b && table[|a|] == entry;
    if FromTable(marks, other) && other != entry {
      OfAround(marks, before, other, after);
      assert (a + [other] + b)[|a|] == other;
    }
    OfConcat(marks, before, after, FromRoutes);
    assert |a + b| < |table|;
    OfAround(marks, before, entry, [entry] + after);
    OfConcat(marks, [entry], after, FromRoutes);
    OfOne(marks, entry);
    assert |a + [entry] + ([entry] + b)| > |table|;
  }

  /** Two entries that differ, each in the other's place, are drift too. */
  lemma SwapDrifts(
    marks: Marks, before: seq<WebRoute>, one: WebRoute, between: seq<WebRoute>, other: WebRoute, after: seq<WebRoute>,
    table: seq<WebRoute>, generated: seq<WebRoute>
  )
    requires FromTable(marks, one) && FromTable(marks, other) && one != other
    requires !Drifted(marks, before + [one] + (between + [other] + after), table, generated)
    ensures Drifted(marks, before + [other] + (between + [one] + after), table, generated)
  {
    var a := Of(marks, before, FromRoutes);
    OfAround(marks, before, one, between + [other] + after);
    OfAround(marks, before, other, between + [one] + after);
    assert (a + [one] + Of(marks, between + [other] + after, FromRoutes))[|a|] == one;
    assert (a + [other] + Of(marks, between + [one] + after, FromRoutes))[|a|] == other;
  }

  // ---- the generated table's entries ----

  function EntryOf(rule: Rewrite): WebRoute {
    WebRoute(rule.src, false, rule.dest)
  }

  function Entries(rules: seq<Rewrite>): seq<WebRoute> {
    if rules == [] then [] else [EntryOf(rules[0])] + Entries(rules[1..])
  }

  lemma {:induction false} ExtensionAfter(path: string, n: nat, slash: nat)
    requires slash < n <= |path| && path[slash] == '/'
    ensures ExtensionStart(path, n) > slash
  {
    if path[n - 1] != '/' && path[n - 1] != '.' {
      ExtensionAfter(path, n - 1, slash);
    }
  }

  lemma {:induction false} ExactConcat(a: string, b: string)
    ensures ExactPattern(a + b) == ExactPattern(a) + ExactPattern(b)
  {
    if a == "" {
      assert a + b == b;
    } else {
      assert (a + b)[0] == a[0] && (a + b)[1..] == a[1..] + b;
      ExactConcat(a[1..], b);
    }
  }

  /** A path under a plain prefix has its pattern under the same. */
  lemma ExactUnder(start: string, path: string)
    requires start <= path && Unspecial(start)
    ensures start <= ExactPattern(path)
  {
    assert path == start + path[|start|..];
    ExactConcat(start, path[|start|..]);
    UnspecialKept(start);
  }

  lemma OwnUnder(name: string)
    requires "api/" <= name
    ensures API <= "/" + name && API <= "/" + AliasPath(name)
  {
    assert name[3] == '/';
    ExtensionAfter(name, |name|, 3);
  }

  lemma {:induction false} PublicNamesUnder(definitions: seq<Definition>, name: string)
    requires name in OwnNames(definitions)
    ensures "api/" <= name
  {
    if name in OwnNames(definitions[1..]) {
      PublicNamesUnder(definitions[1..], name);
    } else {
      assert name == PublicPath(definitions[0]);
    }
  }

  lemma OwnRuleUnder(s: Sources, rule: Rewrite)
    requires rule in OwnRules(PassThroughPaths(s.definitions, s.handWritten))
    requires forall name :: name in s.handWritten ==> "api/" <= name
    ensures API <= rule.dest && rule.src == ExactPattern(rule.dest)
  {
    OwnRulesAre(s, rule);
    var name :| (name in OwnNames(s.definitions) || name in s.handWritten)
      && (rule.dest == "/" + name || rule.dest == "/" + AliasPath(name));
    if name in OwnNames(s.definitions) {
      PublicNamesUnder(s.definitions, name);
    }
    OwnUnder(name);
  }

  lemma OwnMarked(s: Sources, rule: Rewrite)
    requires rule in OwnRules(PassThroughPaths(s.definitions, s.handWritten))
    requires forall name :: name in s.handWritten ==> "api/" <= name
    ensures API <= rule.src
  {
    OwnRuleUnder(s, rule);
    PlainApi();
    ExactUnder(API, rule.dest);
  }

  lemma RuleMarked(s: Sources, marks: Marks, rule: Rewrite)
    requires Compiled(s).Ok? && rule in Compiled(s).value
    requires forall segment :: segment in s.segments ==> API <= segment.src
    requires forall public :: public in s.publics ==> ExactPattern(public.path) in marks.publics
    requires forall name :: name in s.handWritten ==> "api/" <= name
    ensures IsTableRewrite(marks, rule.src)
  {
    if rule in PublicRules(s.definitions, s.publics).value {
      PublicsExact(s.definitions, s.publics, rule);
      var public :| public in s.publics && PublicMakes(s.definitions, public, rule);
    } else if rule in SegmentRules(s.definitions, s.segments).value {
      SegmentsSpelled(s.definitions, s.segments, rule);
      var segment :| segment in s.segments && SegmentMakes(s.definitions, segment, rule);
    } else if rule in LiteralRules(s.definitions, Rewritten(s.segments)).value {
      LiteralsKeyed(s.definitions, Rewritten(s.segments), rule);
      var d, route :| d in s.definitions && KeyedBy(rule, d, route);
    } else if rule in OwnRules(PassThroughPaths(s.definitions, s.handWritten)) {
      OwnMarked(s, rule);
    } else {
      assert rule.src == FALLBACK;
    }
  }

  lemma {:induction false} EntriesMarked(marks: Marks, rules: seq<Rewrite>)
    requires forall rule :: rule in rules ==> IsTableRewrite(marks, rule.src)
    ensures AllMarked(marks, Entries(rules))
  {
    if rules != [] {
      EntriesMarked(marks, rules[1..]);
      assert rules[0] in rules;
    }
  }

  /**
   * Generate, assemble, check: with the table as the routes generate it, the file assembled from it never counts as
   * drifted.
   */
  lemma GeneratedChecks(s: Sources, marks: Marks, routes: seq<WebRoute>)
    requires Generated(s).Ok?
    requires forall rule :: rule in s.elsewhere ==> marks.proxy <= rule.src
    requires forall segment :: segment in s.segments ==> API <= segment.src
    requires forall public :: public in s.publics ==> ExactPattern(public.path) in marks.publics
    requires forall name :: name in s.handWritten ==> "api/" <= name
    ensures var table := Entries(Generated(s).value);
      && !Drifted(marks, Assembled(marks, routes, table), table, table)
      && Assembled(marks, Assembled(marks, routes, table), table) == Assembled(marks, routes, table)
  {
    var rules := Generated(s).value;
    forall rule | rule in rules ensures IsTableRewrite(marks, rule.src) {
      if rule in Compiled(s).value {
        RuleMarked(s, marks, rule);
      }
    }
    EntriesMarked(marks, rules);
    AssembledChecks(marks, routes, Entries(rules), Entries(rules));
    AssembledAgain(marks, routes, Entries(rules));
  }
}
