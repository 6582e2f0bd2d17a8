/**
 * A request landed on a grouped function, and the function's dispatcher, which takes the rewrite's parameters back out:
 * the client path the rewrite replaced is the path the route is handed.
 */
module Dispatch {
  import opened Basics
  import opened Rewrites
  import opened Queries
  import opened Paths
  import Cutting

  /** A URL: its path, and its query as the pairs it reads as. */
  datatype Url = Url(path: string, pairs: seq<Pair>)

  const ROUTE := "route"
  const PATH := "route-path"

  /**
   * A URL's text after its origin: the path up to the first `?`, as a URL's parser has it, and the query after it. No
   * `#` is in a text parsed here.
   */
  function UrlOf(text: string): Url {
    var i := Cutting.FirstCut(text, '?');
    Url(PathSet(text[..i]), if i == |text| then [] else Pairs(text[i + 1..]))
  }

  // ---- landing ----

  function Landed(path: string, caller: seq<Pair>, rule: Rewrite): Url
    requires Takes(rule, path)
  {
    var url := UrlOf(LandedPath(path, rule));
    Url(url.path, url.pairs + caller)
  }

  // ---- the dispatcher ----

  function First(pairs: seq<Pair>, name: string): Option<string> {
    if pairs == [] then None
    else if pairs[0].0 == name then Some(pairs[0].1)
    else First(pairs[1..], name)
  }

  function Without(pairs: seq<Pair>, name: string): seq<Pair> {
    if pairs == [] then []
    else (if pairs[0].0 == name then [] else [pairs[0]]) + Without(pairs[1..], name)
  }

  lemma FirstFrom(pairs: seq<Pair>, i: nat, name: string)
    requires i < |pairs|
    ensures First(pairs[i..], name) == if pairs[i].0 == name then Some(pairs[i].1) else First(pairs[i + 1..], name)
  {
    assert pairs[i..][0] == pairs[i] && pairs[i..][1..] == pairs[i + 1..];
  }

  lemma WithoutFrom(pairs: seq<Pair>, i: nat, name: string)
    requires i < |pairs|
    ensures pairs[i].0 == name ==> Without(pairs[i..], name) == Without(pairs[i + 1..], name)
    ensures pairs[i].0 != name ==> Without(pairs[i..], name) == [pairs[i]] + Without(pairs[i + 1..], name)
  {
    assert pairs[i..][0] == pairs[i] && pairs[i..][1..] == pairs[i + 1..];
    assert [] + Without(pairs[i + 1..], name) == Without(pairs[i + 1..], name);
  }

  datatype Handing = Handed(member: string, url: Url) | NotFound

  /** Which route a request is for: its key's, the hosted one for every other, none where the function lacks that. */
  function MemberFor(held: set<string>, key: Option<string>): Option<string> {
    if key.Some? && key.value != ORPC && key.value in held then key
    else if ORPC in held then Some(ORPC)
    else None
  }

  /** What the route is handed: its path restored, and the caller's own query. */
  function Dispatched(held: set<string>, url: Url): Handing {
    var key, carried := First(url.pairs, ROUTE), First(url.pairs, PATH);
    var member := MemberFor(held, key);
    if member.None? then NotFound
    else
      Handed(member.value, Url(RestoredPath(member.value, carried, url.path), Without(Without(url.pairs, ROUTE), PATH)))
  }

  /** A URL's path set to `/api/` and a value. */
  function ApiPath(value: string): string {
    PathSet(API + value)
  }

  /** `carried ?? key`. */
  function CarriedOr(carried: Option<string>, key: string): string {
    if carried.Some? then carried.value else key
  }

  /** The path a member is handed: the one carried, or its key's; the hosted route keeps its request's where none is. */
  function RestoredPath(member: string, carried: Option<string>, asked: string): string {
    if member == ORPC && carried.None? then asked else ApiPath(CarriedOr(carried, member))
  }

  lemma ApiHeld()
    ensures Held(API) && "/" <= API
  {
    assert Spelt('/') == "/" && Spelt('a') == "a" && Spelt('p') == "p" && Spelt('i') == "i";
  }

  /** The URL object the two steps edit. */
  class Address {
    var pathname: string
    var pairs: seq<Pair>

    constructor (url: Url)
      ensures View() == url
    {
      pathname, pairs := url.path, url.pairs;
    }

    function View(): Url
      reads this
    {
      Url(pathname, pairs)
    }

    method Get(name: string) returns (value: Option<string>)
      ensures value == First(pairs, name)
    {
      for i := 0 to |pairs|
        invariant First(pairs, name) == First(pairs[i..], name)
      {
        FirstFrom(pairs, i, name);
        if pairs[i].0 == name {
          return Some(pairs[i].1);
        }
      }
      return None;
    }

    /** `pathname = …`: the path set to `/api/` and a value, as a path's setter writes and resolves it. */
    method SetUnderApi(value: string)
      modifies this
      ensures pathname == ApiPath(value) && pairs == old(pairs)
    {
      pathname := PathSet(API + value);
    }

    method Append(pair: Pair)
      modifies this
      ensures pathname == old(pathname) && pairs == old(pairs) + [pair]
    {
      pairs := pairs + [pair];
    }

    method Delete(name: string)
      modifies this
      ensures pathname == old(pathname) && pairs == Without(old(pairs), name)
    {
      var kept: seq<Pair> := [];
      for i := 0 to |pairs|
        invariant pathname == old(pathname) && pairs == old(pairs)
        invariant Without(pairs, name) == kept + Without(pairs[i..], name)
      {
        WithoutFrom(pairs, i, name);
        if pairs[i].0 != name {
          Regrouped(kept, [pairs[i]], Without(pairs[i + 1..], name));
          kept := kept + [pairs[i]];
        }
      }
      pairs := kept;
    }
  }

  /** An address with the caller's pairs appended to its own, one by one. */
  method Appended(destination: Url, caller: seq<Pair>) returns (url: Address)
    ensures fresh(url) && url.View() == Url(destination.path, destination.pairs + caller)
  {
    url := new Address(destination);
    for i := 0 to |caller|
      invariant fresh(url) && url.pathname == destination.path
      invariant destination.pairs + caller == url.pairs + caller[i..]
    {
      assert caller[i..] == [caller[i]] + caller[i + 1..];
      url.Append(caller[i]);
    }
  }

  /** `landed`: the rule's destination, the caller's query after its own. */
  method Land(path: string, caller: seq<Pair>, rule: Rewrite) returns (url: Address)
    requires Takes(rule, path)
    ensures fresh(url) && url.View() == Landed(path, caller, rule)
  {
    url := Appended(UrlOf(LandedPath(path, rule)), caller);
  }

  /** The dispatcher's fetch, on an address of its own. */
  method Fetch(held: set<string>, request: Url) returns (handing: Handing)
    ensures handing == Dispatched(held, request)
  {
    var url := new Address(request);
    var key := url.Get(ROUTE);
    var carried := url.Get(PATH);
    url.Delete(ROUTE);
    url.Delete(PATH);
    if key.Some? && key.value != ORPC && key.value in held {
      url.SetUnderApi(CarriedOr(carried, key.value));
      return Handed(key.value, url.View());
    }
    if ORPC !in held {
      return NotFound;
    }
    if carried.Some? {
      url.SetUnderApi(carried.value);
    }
    return Handed(ORPC, url.View());
  }

  lemma RouteName()
    ensures ParameterName(ROUTE)
  {
  }

  lemma PathName()
    ensures ParameterName(PATH)
  {
  }

  lemma OrpcPlain()
    ensures Plain(ORPC)
  {
  }

  lemma {:induction false} WithoutConcat(a: seq<Pair>, b: seq<Pair>, name: string)
    ensures Without(a + b, name) == Without(a, name) + Without(b, name)
  {
    if a == [] {
      assert a + b == b;
    } else {
      var first := if a[0].0 == name then [] else [a[0]];
      calc {
        Without(a + b, name);
        { assert (a + b)[0] == a[0] && (a + b)[1..] == a[1..] + b; }
        first + Without(a[1..] + b, name);
        { WithoutConcat(a[1..], b, name); }
        first + (Without(a[1..], name) + Without(b, name));
        (first + Without(a[1..], name)) + Without(b, name);
        Without(a, name) + Without(b, name);
      }
    }
  }

  lemma {:induction false} FirstConcat(a: seq<Pair>, b: seq<Pair>, name: string)
    ensures First(a + b, name) == if First(a, name).Some? then First(a, name) else First(b, name)
  {
    if a == [] {
      assert a + b == b;
    } else {
      assert (a + b)[0] == a[0] && (a + b)[1..] == a[1..] + b;
      FirstConcat(a[1..], b, name);
    }
  }
}
