/**
 * Requests that come to what the serving theorems allow for: one whose path plants a pair of the dispatcher's, one
 * handed on at a path outside `/api/`, and what dots in a carried path come to.
 */
module ServingRuns {
  import opened Basics
  import opened Paths
  import opened Queries
  import opened Patterns
  import opened Rewrites
  import opened Landing
  import opened Dispatch
  import opened DispatchTheorems
  import opened ServingTheorems
  import Cutting

  /** A service of one function, that holds a segment's route and the hosted one. */
  function Holder(segment: SegmentRewrite): Definition {
    Definition("default", [segment.route, ORPC], true, None)
  }

  function Service(segment: SegmentRewrite): Sources {
    Sources([], [Holder(segment)], [segment], [], [])
  }

  lemma HolderOf(segment: SegmentRewrite, route: string)
    ensures FunctionOf([Holder(segment)], route)
      == if route == segment.route || route == ORPC then Some(Holder(segment)) else None
    ensures OwnFiles([Holder(segment)])
  {
    assert [Holder(segment)][1..] == [];
    HolderClean(segment);
  }

  lemma HolderClean(segment: SegmentRewrite)
    ensures CleanFile(Holder(segment))
  {
    var tail := "default.js";
    assert API + tail == "/" + PublicPath(Holder(segment));
    DefaultHeld();
    OneSegment(tail);
  }

  lemma DefaultHeld()
    ensures Held("default.js") && '/' !in "default.js"
  {
    LiteralText("default");
    LiteralText("js");
    DotsAre();
    HeldConcat("default", ".");
    HeldConcat("default" + ".", "js");
    assert "default" + "." + "js" == "default.js";
  }

  lemma Named(segment: SegmentRewrite)
    ensures forall route :: route in Holder(segment).routes ==> route in Rewritten([segment])
  {
    assert segment in [segment];
    assert ORPC in {ORPC};
  }

  lemma NoRules(segment: SegmentRewrite)
    ensures LiteralRules([Holder(segment)], Rewritten([segment])) == Ok([])
  {
    var d, rewritten := Holder(segment), Rewritten([segment]);
    Named(segment);
    AllNamed(d, d.routes, rewritten);
    assert [d][1..] == [];
    assert LiteralRules([], rewritten) == Ok([]);
    ThenNothing(Ok([]));
  }

  lemma {:induction false} AllNamed(d: Definition, routes: seq<string>, rewritten: set<string>)
    requires forall route :: route in routes ==> route in rewritten
    ensures RouteRules(d, routes, rewritten) == Ok([])
  {
    if routes != [] {
      AllNamed(d, routes[1..], rewritten);
      ThenNothing(Ok([]));
    }
  }

  lemma ServiceGenerates(segment: SegmentRewrite)
    ensures Generated(Service(segment)).Ok?
  {
    var s := Service(segment);
    HolderOf(segment, segment.route);
    HolderOf(segment, ORPC);
    NoRules(segment);
    assert s.segments[1..] == [];
    assert SegmentRules(s.definitions, []) == Ok([]);
  }

  /** What a path under `/api/` means to such a service. */
  lemma ServiceMeans(segment: SegmentRewrite, path: string)
    requires API <= path
    ensures MeaningOf(Service(segment), path) == if SegmentTakes(segment, path) then BySegment(segment) else ByFallback
  {
    var s, key := Service(segment), path[|API|..];
    assert s.segments[1..] == [] && s.definitions[1..] == [];
    assert FirstSegment(s.segments, path) == if SegmentTakes(segment, path) then Some(segment) else None;
    Named(segment);
    assert FirstHolder([], key) == None;
    assert FirstHolder(s.definitions, key).Some? ==> key in Holder(segment).routes;
    assert OwnNames(s.definitions) == [] + OwnNames([]) == [];
  }

  // ---- a segment between two texts ----

  lemma BetweenReads(a: string, b: string)
    requires Unspecial(a) && Unspecial(b)
    ensures Read(a + SEGMENT + b) == Some(Spelled(a) + ([Segment] + Spelled(b)))
  {
    UnspecialKept(a);
    UnspecialKept(b);
    Regrouped(a, SEGMENT, b);
    ReadExactly(a, SEGMENT + b);
    assert (SEGMENT + b)[|SEGMENT|..] == b && SEGMENT <= SEGMENT + b;
    ExactMatches(b, b);
    AllBeforeSpelled(a, [Segment] + Spelled(b));
  }

  lemma SegmentThen(b: string, group: string)
    requires group != "" && '/' !in group && "/" <= b
    ensures Groups([Segment] + Spelled(b), group + b) == Some([group])
  {
    var p, path := [Segment] + Spelled(b), group + b;
    RunOver(group, b);
    SpelledMatches(b, b);
    assert p[1..] == Spelled(b) && path[|group|..] == b && path[..|group|] == group;
    assert GroupsFrom(p, path, |group|, 1) == Some([group] + []);
    assert [group] + [] == [group];
  }

  lemma TextThen(text: string, rest: Pattern, tail: string)
    ensures Groups(Spelled(text) + rest, text + tail) == Groups(rest, tail)
  {
    AfterText(text, rest, text + tail);
    assert (text + tail)[|text|..] == tail;
  }

  lemma BetweenTakes(a: string, b: string, group: string)
    requires group != "" && '/' !in group && "/" <= b
    ensures Groups(Spelled(a) + ([Segment] + Spelled(b)), a + group + b) == Some([group])
  {
    SegmentThen(b, group);
    TextThen(a, [Segment] + Spelled(b), group + b);
    Regrouped(a, group, b);
  }

  lemma RunOver(group: string, b: string)
    requires '/' !in group && "/" <= b
    ensures Run(group + b) == |group|
  {
    assert (group + b)[..|group|] == group && (group + b)[|group|] == '/';
    RunHolds(group + b, |group|);
  }

  lemma {:induction false} SpelledCount(text: string, rest: Pattern)
    ensures GroupCount(Spelled(text) + rest) == GroupCount(rest)
  {
    if text == "" {
      assert Spelled(text) + rest == rest;
    } else {
      SpelledCount(text[1..], rest);
      assert (Spelled(text) + rest)[1..] == Spelled(text[1..]) + rest;
    }
  }

  lemma BetweenCount(a: string, b: string)
    ensures GroupCount(Spelled(a) + ([Segment] + Spelled(b))) == 1
  {
    SpelledCount(a, [Segment] + Spelled(b));
    SpelledCount(b, []);
    assert Spelled(b) + [] == Spelled(b) && ([Segment] + Spelled(b))[1..] == Spelled(b);
  }

  // ---- the runs ----

  /** A rewrite that reads the segment between two texts into a parameter. */
  function Reading(a: string, b: string, route: string, name: string): SegmentRewrite {
    SegmentRewrite(a + SEGMENT + b, route, Parameters([name], 1))
  }

  lemma ReadingTakes(a: string, b: string, route: string, name: string, group: string)
    requires Unspecial(a) && Unspecial(b) && "/" <= b && group != "" && '/' !in group
    ensures var segment := Reading(a, b, route, name);
      && GroupFor([name], segment.src) && SegmentTakes(segment, a + group + b)
      && Groups(Read(segment.src).value, a + group + b) == Some([group])
  {
    BetweenReads(a, b);
    BetweenTakes(a, b, group);
    BetweenCount(a, b);
  }

  /** Wherever a rewrite reads a segment into a parameter, a path exists that moves the path its route is handed. */
  lemma PlantedRun(
    a: string, b: string, route: string, name: string, group: string, planted: string, caller: seq<Pair>
  )
    requires API <= a && Unspecial(a) && Unspecial(b) && "/" <= b
    requires ParameterName(name) && name != ROUTE && name != PATH && Plain(route) && route != ORPC
    requires '/' !in group && '&' !in group && '/' !in planted && '&' !in planted
    ensures var s := Service(Reading(a, b, route, name));
      && Generated(s).Ok?
      && Served(s.definitions, Generated(s).value, a + (group + "&" + (PATH + "=" + planted)) + b, caller)
        == Some(Handed(route, Url(ApiPath(Decoded(planted)), [(name, Decoded(group))] + Own(caller))))
  {
    var segment := Reading(a, b, route, name);
    var planting := group + "&" + (PATH + "=" + planted);
    var path := a + planting + b;
    ReadingTakes(a, b, route, name, planting);
    ServiceGenerates(segment);
    ServiceMeans(segment, path);
    HolderOf(segment, route);
    PlantedServes(Service(segment), name, group, planted, path, caller);
  }

  const PHOTO := SegmentRewrite("/api/workspaces/" + SEGMENT + "/photo", "workspaces/photo", "id=$1")

  /** A workspace's photo asked for so that it is handed on at `/api/y`. */
  lemma PhotoMoved(caller: seq<Pair>)
    ensures Generated(Service(PHOTO)).Ok?
    ensures Served(Service(PHOTO).definitions, Generated(Service(PHOTO)).value,
      "/api/workspaces/x&route-path=y/photo", caller)
      == Some(Handed("workspaces/photo", Url("/api/y", [("id", "x")] + Own(caller))))
  {
    PhotoReads();
    PhotoNames();
    PhotoName();
    PlantedRun("/api/workspaces/", "/photo", "workspaces/photo", "id", "x", "y", caller);
    LettersRead();
  }

  lemma PhotoReads()
    ensures Reading("/api/workspaces/", "/photo", "workspaces/photo", "id") == PHOTO
    ensures "/api/workspaces/" + ("x" + "&" + (PATH + "=" + "y")) + "/photo" == "/api/workspaces/x&route-path=y/photo"
  {
  }

  lemma LiteralPlain(text: string)
    requires LiteralKey(text)
    ensures Unspecial(text) && Plain(text)
  {
  }

  lemma PhotoNames()
    ensures API <= "/api/workspaces/" && Unspecial("/api/workspaces/") && Unspecial("/photo") && "/" <= "/photo"
    ensures Plain("workspaces/photo") && "workspaces/photo" != ORPC
  {
    LiteralPlain("/api/workspaces/");
    LiteralPlain("/photo");
    LiteralPlain("workspaces/photo");
  }

  lemma PhotoName()
    ensures ParameterName("id") && "id" != ROUTE && "id" != PATH
  {
  }

  lemma LettersRead()
    ensures Decoded("x") == "x" && Decoded("y") == "y" && ApiPath("y") == "/api/y"
  {
    LiteralSet("y");
  }

  // ---- a path outside `/api/` ----

  const SLASH := "%2F"

  lemma SlashEscapes(rest: string)
    ensures EscapeAhead(SLASH + rest) && ByteAhead(SLASH + rest) == '/'
    ensures (SLASH + rest)[3..] == rest
  {
  }

  lemma {:induction false} SlashDecoded(text: string, rest: string)
    requires '%' !in text && '+' !in text
    ensures Decoded(text + (SLASH + rest)) == text + "/" + Decoded(rest)
  {
    var whole := text + (SLASH + rest);
    if text == "" {
      SlashEscapes(rest);
      assert whole == SLASH + rest;
    } else {
      assert whole[0] == text[0] && whole[1..] == text[1..] + (SLASH + rest);
      SlashDecoded(text[1..], rest);
      Regrouped([text[0]], text[1..], "/" + Decoded(rest));
    }
  }

  function Up(rest: string): string {
    SLASH + (".." + rest)
  }

  /** One segment of a URL's path, its slashes escaped, that is read back as a segment, two double dots and a value. */
  function Hidden(next: string, value: string): string {
    next + Up(Up(SLASH + value))
  }

  lemma HiddenDecoded(next: string, value: string)
    requires '%' !in next && '+' !in next && '%' !in value && '+' !in value
    ensures Decoded(Hidden(next, value)) == next + "/" + (".." + "/" + (".." + "/" + value))
  {
    DecodedPlain(value);
    SlashDecoded("..", value);
    SlashDecoded("..", ".." + (SLASH + value));
    SlashDecoded(next, ".." + Up(SLASH + value));
  }

  /** Held text of one segment. */
  predicate Part(text: string) {
    Held(text) && '/' !in text && '&' !in text
  }

  lemma PartConcat(a: string, b: string)
    requires Part(a) && Part(b)
    ensures Part(a + b)
  {
    HeldConcat(a, b);
  }

  lemma PartsOfUp()
    ensures Part(SLASH) && Part("..")
  {
    DotsAre();
    assert Spelt('%') == "%" && Spelt('2') == "2" && Spelt('F') == "F";
  }

  lemma UpPart(rest: string)
    requires Part(rest)
    ensures Part(Up(rest)) && |Up(rest)| == |rest| + 5
  {
    PartsOfUp();
    PartConcat("..", rest);
    PartConcat(SLASH, ".." + rest);
  }

  lemma HiddenHeld(next: string, value: string)
    requires Part(next) && Part(value)
    ensures Part(Hidden(next, value)) && |Hidden(next, value)| > 6
  {
    PartsOfUp();
    PartConcat(SLASH, value);
    UpPart(SLASH + value);
    UpPart(Up(SLASH + value));
    PartConcat(next, Up(Up(SLASH + value)));
  }

  lemma OneSegment(tail: string)
    requires Held(tail) && '/' !in tail && |tail| > 6
    ensures UrlPath(API + tail)
  {
    ApiHeld();
    HeldConcat(API, tail);
    ApiSegment();
    SegmentsUnder("api", tail);
    Cutting.NoCut(tail, '/');
    if DotSegment(tail) {
      DotSegmentShort(tail);
      assert false;
    }
  }

  lemma TopSet(value: string)
    requires LiteralKey(value)
    ensures PathSet("/" + value) == "/" + value
  {
    forall i | 0 <= i < |value| ensures Spelt(value[i]) == [value[i]] {
      LiteralSpelt(value[i]);
    }
    assert Spelt('/') == "/";
    HeldConcat("/", value);
    LiteralDotless("/", value);
    SetKeepsExactly("/" + value);
  }

  /** A client's own path, with no query, that the hosted route is handed outside `/api/`. */
  lemma HiddenServes(s: Sources, next: string, value: string, caller: seq<Pair>)
    requires Generated(s).Ok? && OwnFiles(s.definitions) && FunctionOf(s.definitions, ORPC).value.dispatches
    requires LiteralKey(next) && LiteralKey(value) && '/' !in next && '/' !in value
    requires MeaningOf(s, API + Hidden(next, value)) == ByFallback
    ensures UrlPath(API + Hidden(next, value))
    ensures Served(s.definitions, Generated(s).value, API + Hidden(next, value), caller)
      == Some(Handed(ORPC, Url("/" + value, Own(caller))))
  {
    var hidden := Hidden(next, value);
    HiddenRead(next, value);
    OneSegment(hidden);
    FallbackServes(s, API + hidden, caller);
    assert (API + hidden)[|API|..] == hidden;
    WholeRead(hidden, caller);
  }

  lemma LiteralText(text: string)
    requires LiteralKey(text)
    ensures Held(text) && '%' !in text && '+' !in text && '&' !in text && '.' !in text
  {
    forall i | 0 <= i < |text| ensures Spelt(text[i]) == [text[i]] {
      LiteralSpelt(text[i]);
    }
  }

  lemma HiddenRead(next: string, value: string)
    requires LiteralKey(next) && LiteralKey(value) && '/' !in next && '/' !in value
    ensures var hidden := Hidden(next, value);
      && Held(hidden) && '/' !in hidden && '&' !in hidden && |hidden| > 6 && ApiPath(Decoded(hidden)) == "/" + value
  {
    LiteralText(next);
    LiteralText(value);
    HiddenHeld(next, value);
    HiddenDecoded(next, value);
    if DotSegment(next) {
      DotSegmentSpelt(next);
      assert false;
    }
    ApiTwoDoubleDots(next, value);
    TopSet(value);
  }

  lemma WholeRead(tail: string, caller: seq<Pair>)
    requires '&' !in tail
    ensures ReadBack(tail) == Decoded(tail) && Own(Pairs(Spilt(tail))) + Own(caller) == Own(caller)
  {
    Cutting.NoCut(tail, '&');
    assert tail[..|tail|] == tail;
    NoPairs();
    assert Own([]) + Own(caller) == Own(caller);
  }

  lemma HiddenLeaves(segment: SegmentRewrite, next: string, value: string, caller: seq<Pair>)
    requires LiteralKey(next) && LiteralKey(value) && '/' !in next && '/' !in value
    requires !SegmentTakes(segment, API + Hidden(next, value))
    ensures Generated(Service(segment)).Ok?
    ensures Served(Service(segment).definitions, Generated(Service(segment)).value, API + Hidden(next, value), caller)
      == Some(Handed(ORPC, Url("/" + value, Own(caller))))
  {
    ServiceGenerates(segment);
    ServiceMeans(segment, API + Hidden(next, value));
    HolderOf(segment, ORPC);
    HiddenServes(Service(segment), next, value, caller);
  }

  lemma NotTaken(a: string, b: string, route: string, name: string, path: string)
    requires Unspecial(a) && Unspecial(b) && !(a <= path)
    ensures !SegmentTakes(Reading(a, b, route, name), path)
  {
    BetweenReads(a, b);
    AfterText(a, [Segment] + Spelled(b), path);
  }

  /** The hosted route handed `/x` of a client that asked for a path under `/api/`. */
  lemma PathLeaves(caller: seq<Pair>)
    ensures Generated(Service(PHOTO)).Ok?
    ensures Served(Service(PHOTO).definitions, Generated(Service(PHOTO)).value, "/api/a%2F..%2F..%2Fx", caller)
      == Some(Handed(ORPC, Url("/x", Own(caller))))
  {
    LettersHidden();
    PhotoReads();
    PhotoNames();
    PhotoElsewhere(API + Hidden("a", "x"));
    NotTaken("/api/workspaces/", "/photo", "workspaces/photo", "id", API + Hidden("a", "x"));
    HiddenLeaves(PHOTO, "a", "x", caller);
    SlashX();
  }

  lemma SlashX()
    ensures "/" + "x" == "/x"
  {
  }

  lemma LettersHidden()
    ensures API + Hidden("a", "x") == "/api/a%2F..%2F..%2Fx"
    ensures LiteralKey("a") && LiteralKey("x") && '/' !in "a" && '/' !in "x"
  {
  }

  lemma PhotoElsewhere(path: string)
    requires path == "/api/a%2F..%2F..%2Fx"
    ensures !("/api/workspaces/" <= path)
  {
    assert path[5] == 'a';
  }
}
