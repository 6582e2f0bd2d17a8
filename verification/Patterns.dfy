/**
 * A rewrite's pattern: the regular expressions made of plain characters, escaped ones, `([^/]+)` and `(.*)`, matched
 * over a whole path as a regular expression matches, each group taking as much as it can and giving back as little as
 * it must.
 */
module Patterns {
  import opened Basics
  import opened Text

  /** One character, `([^/]+)`, or `(.*)`. */
  datatype Part = Just(spelt: char) | Segment | Rest

  type Pattern = seq<Part>

  const SEGMENT := "([^/]+)"
  const REST := "(.*)"

  /** The characters a regular expression reads as something else than themselves. */
  predicate Special(c: char) {
    c in ".*+?^${}()|[]\\"
  }

  /** The pattern a source spells, where it is made of these forms alone. */
  function Read(src: string): Option<Pattern>
    decreases |src|
  {
    if src == "" then Some([])
    else if SEGMENT <= src then Before(Segment, Read(src[|SEGMENT|..]))
    else if REST <= src then Before(Rest, Read(src[|REST|..]))
    else if src[0] == '\\' && |src| > 1 && Special(src[1]) then Before(Just(src[1]), Read(src[2..]))
    else if Special(src[0]) then None
    else Before(Just(src[0]), Read(src[1..]))
  }

  function Before(part: Part, rest: Option<Pattern>): Option<Pattern> {
    if rest.Some? then Some([part] + rest.value) else None
  }

  /** A path's source: its special characters escaped. */
  function ExactPattern(path: string): string {
    if path == "" then ""
    else Escaped(path[0]) + ExactPattern(path[1..])
  }

  function Spelled(text: string): Pattern {
    if text == "" then [] else [Just(text[0])] + Spelled(text[1..])
  }

  /** How much of a path its first segment takes. */
  function Run(path: string): (n: nat)
    ensures n <= |path| && '/' !in path[..n] && (n < |path| ==> path[n] == '/')
  {
    if path == "" || path[0] == '/' then 0 else 1 + Run(path[1..])
  }

  /** The groups of a whole path, where the pattern matches it. */
  function Groups(p: Pattern, path: string): Option<seq<string>>
    decreases |p|, 0, 0
  {
    if p == [] then if path == "" then Some([]) else None
    else match p[0]
      case Just(c) => if path != "" && path[0] == c then Groups(p[1..], path[1..]) else None
      case Segment => GroupsFrom(p, path, Run(path), 1)
      case Rest => GroupsFrom(p, path, |path|, 0)
  }

  /** The first group tried at `n` characters, then at fewer, down to `least`. */
  function GroupsFrom(p: Pattern, path: string, n: nat, least: nat): Option<seq<string>>
    requires p != [] && n <= |path|
    decreases |p| - 1, 1, n
  {
    if n < least then None
    else
      var after := Groups(p[1..], path[n..]);
      if after.Some? then Some([path[..n]] + after.value)
      else if n == 0 then None
      else GroupsFrom(p, path, n - 1, least)
  }

  predicate Matches(p: Pattern, path: string) {
    Groups(p, path).Some?
  }

  /** Whether groups written into a pattern give the path, each in its group's terms. */
  predicate Fits(p: Pattern, groups: seq<string>, path: string)
    decreases |p|
  {
    if p == [] then groups == [] && path == ""
    else match p[0]
      case Just(c) => path != "" && path[0] == c && Fits(p[1..], groups, path[1..])
      case Segment =>
        && groups != [] && groups[0] != "" && '/' !in groups[0] && groups[0] <= path
        && Fits(p[1..], groups[1..], path[|groups[0]|..])
      case Rest => groups != [] && groups[0] <= path && Fits(p[1..], groups[1..], path[|groups[0]|..])
  }

  /** The groups a match gives fit the path. */
  lemma {:induction false} GroupsFit(p: Pattern, path: string)
    requires Matches(p, path)
    ensures Fits(p, Groups(p, path).value, path)
    decreases |p|, 0, 0
  {
    if p != [] {
      match p[0]
      case Just(c) => GroupsFit(p[1..], path[1..]);
      case Segment => GroupsFromFit(p, path, Run(path), 1);
      case Rest => GroupsFromFit(p, path, |path|, 0);
    }
  }

  lemma {:induction false} GroupsFromFit(p: Pattern, path: string, n: nat, least: nat)
    requires p != [] && n <= |path| && GroupsFrom(p, path, n, least).Some?
    requires p[0].Rest? || (p[0].Segment? && least == 1 && n <= Run(path))
    ensures Fits(p, GroupsFrom(p, path, n, least).value, path)
    decreases |p| - 1, 1, n
  {
    if Groups(p[1..], path[n..]).Some? {
      GroupsFit(p[1..], path[n..]);
      var groups := GroupsFrom(p, path, n, least).value;
      assert groups[0] == path[..n] && groups[1..] == Groups(p[1..], path[n..]).value;
      assert p[0].Segment? ==> forall i :: 0 <= i < n ==> path[i] == path[..Run(path)][i];
    } else {
      GroupsFromFit(p, path, n - 1, least);
    }
  }

  /** A path some groups fit is matched: giving back tries every length a group may have. */
  lemma {:induction false} FitMatches(p: Pattern, groups: seq<string>, path: string)
    requires Fits(p, groups, path)
    ensures Matches(p, path)
    decreases |p|, 0, 0
  {
    if p != [] {
      match p[0]
      case Just(c) => FitMatches(p[1..], groups, path[1..]);
      case Segment =>
        var n := |groups[0]|;
        FitMatches(p[1..], groups[1..], path[n..]);
        RunHolds(path, n);
        TriesReach(p, path, Run(path), 1, n);
      case Rest =>
        FitMatches(p[1..], groups[1..], path[|groups[0]|..]);
        TriesReach(p, path, |path|, 0, |groups[0]|);
    }
  }

  lemma {:induction false} TriesReach(p: Pattern, path: string, n: nat, least: nat, k: nat)
    requires p != [] && least <= k <= n <= |path| && Matches(p[1..], path[k..])
    ensures GroupsFrom(p, path, n, least).Some?
    decreases n
  {
    if !Matches(p[1..], path[n..]) {
      TriesReach(p, path, n - 1, least, k);
    }
  }

  lemma {:induction false} RunHolds(path: string, n: nat)
    requires n <= |path| && '/' !in path[..n]
    ensures n <= Run(path)
  {
    if n > 0 {
      assert path[..n][0] == path[0] && path[..n][1..] == path[1..][..n - 1];
      RunHolds(path[1..], n - 1);
    }
  }

  /** A pattern matches exactly the paths its groups can be filled in to give, and what it gives is such a filling. */
  lemma MatchesExactly(p: Pattern, path: string)
    ensures Matches(p, path) ==> Fits(p, Groups(p, path).value, path)
    ensures forall groups :: Fits(p, groups, path) ==> Matches(p, path)
  {
    if Matches(p, path) {
      GroupsFit(p, path);
    }
    forall groups | Fits(p, groups, path) ensures Matches(p, path) {
      FitMatches(p, groups, path);
    }
  }

  /** Groups are taken as long as they may be, the first ones first. */
  predicate AtLeast(found: seq<string>, others: seq<string>) {
    found == [] || others == [] || |found[0]| > |others[0]|
    || (found[0] == others[0] && AtLeast(found[1..], others[1..]))
  }

  lemma {:induction false} LongestTried(p: Pattern, path: string, n: nat, least: nat, k: nat)
    requires p != [] && least <= k <= n <= |path| && Matches(p[1..], path[k..])
    ensures GroupsFrom(p, path, n, least).Some?
    ensures var found := GroupsFrom(p, path, n, least).value;
      && found != [] && |found[0]| >= k
      && (|found[0]| == k ==> found == [path[..k]] + Groups(p[1..], path[k..]).value)
    decreases n
  {
    if !Matches(p[1..], path[n..]) {
      LongestTried(p, path, n - 1, least, k);
    }
  }

  /** Of all the ways to fill a pattern in, a match has the longest first group, then the longest second, and so on. */
  lemma {:induction false} Greedy(p: Pattern, groups: seq<string>, path: string)
    requires Fits(p, groups, path)
    ensures Matches(p, path) && AtLeast(Groups(p, path).value, groups)
    decreases |p|
  {
    if p != [] {
      if p[0].Just? {
        Greedy(p[1..], groups, path[1..]);
      } else {
        var k := |groups[0]|;
        Greedy(p[1..], groups[1..], path[k..]);
        assert path[..k] == groups[0];
        if p[0].Segment? {
          RunHolds(path, k);
          LongestTried(p, path, Run(path), 1, k);
        } else {
          LongestTried(p, path, |path|, 0, k);
        }
      }
    }
  }

  /** Text a pattern starts with is text its paths start with, and no group holds any of it. */
  lemma {:induction false} AfterText(text: string, rest: Pattern, path: string)
    ensures Groups(Spelled(text) + rest, path) == if text <= path then Groups(rest, path[|text|..]) else None
  {
    if text == "" {
      assert Spelled(text) + rest == rest;
    } else {
      var p := Spelled(text) + rest;
      assert p[0] == Just(text[0]) && p[1..] == Spelled(text[1..]) + rest;
      if path != "" && path[0] == text[0] {
        AfterText(text[1..], rest, path[1..]);
        assert text <= path <==> text[1..] <= path[1..];
        assert text <= path ==> path[1..][|text[1..]|..] == path[|text|..];
      }
    }
  }

  /** A pattern of text alone matches that text, and nothing else. */
  lemma SpelledMatches(text: string, path: string)
    ensures Matches(Spelled(text), path) <==> path == text
    ensures Groups(Spelled(text), text) == Some([])
  {
    AfterText(text, [], path);
    AfterText(text, [], text);
    assert Spelled(text) + [] == Spelled(text);
    assert text <= path ==> path == text + path[|text|..];
  }

  /** A start and the rest captured: matched by exactly the paths that start so, with what follows. */
  lemma PrefixMatches(text: string, path: string)
    ensures Matches(Spelled(text) + [Rest], path) <==> text <= path
    ensures text <= path ==> Groups(Spelled(text) + [Rest], path) == Some([path[|text|..]])
  {
    AfterText(text, [Rest], path);
    if text <= path {
      var rest := path[|text|..];
      assert Groups([Rest], rest) == GroupsFrom([Rest], rest, |rest|, 0);
      assert [Rest][1..] == [] && rest[|rest|..] == "" && rest[..|rest|] == rest;
      assert Groups([], "") == Some([]);
      assert [rest] + [] == [rest];
    }
  }

  function Escaped(c: char): string {
    if Special(c) then ['\\', c] else [c]
  }

  lemma ReadEscaped(c: char, after: string)
    ensures Read(Escaped(c) + after) == Before(Just(c), Read(after))
  {
    var src := Escaped(c) + after;
    assert SEGMENT[0] == REST[0] == '(' && Special('(') && Special('\\');
    assert src[0] != '(' && !(SEGMENT <= src) && !(REST <= src);
    if Special(c) {
      assert src[0] == '\\' && src[1] == c && src[2..] == after;
    } else {
      assert src[0] == c && src[1..] == after;
    }
  }

  function AllBefore(text: string, rest: Option<Pattern>): Option<Pattern> {
    if text == "" then rest else Before(Just(text[0]), AllBefore(text[1..], rest))
  }

  lemma {:induction false} AllBeforeSpelled(text: string, rest: Pattern)
    ensures AllBefore(text, Some(rest)) == Some(Spelled(text) + rest)
  {
    if text == "" {
      assert Spelled(text) + rest == rest;
    } else {
      AllBeforeSpelled(text[1..], rest);
      assert [Just(text[0])] + (Spelled(text[1..]) + rest) == Spelled(text) + rest;
    }
  }

  /** An escaped path reads back as the path's own characters, whatever they are and whatever is written after it. */
  lemma {:induction false} ReadExactly(path: string, rest: string)
    ensures Read(ExactPattern(path) + rest) == AllBefore(path, Read(rest))
  {
    if path == "" {
      assert ExactPattern(path) + rest == rest;
    } else {
      ExactStep(path, rest);
      ReadExactly(path[1..], rest);
    }
  }

  lemma ExactStep(path: string, rest: string)
    requires path != ""
    ensures Read(ExactPattern(path) + rest) == Before(Just(path[0]), Read(ExactPattern(path[1..]) + rest))
  {
    var after := ExactPattern(path[1..]) + rest;
    assert ExactPattern(path) + rest == Escaped(path[0]) + after;
    ReadEscaped(path[0], after);
  }

  /**
   * A character alone reads as itself exactly where a regular expression gives it no other meaning (SyntaxCharacter of
   * ECMA-262), and those it does are written with a backslash before them.
   */
  lemma SyntaxEscaped(c: char)
    ensures var syntax := c in "^$\\.*+?()[]{}|";
      && Read([c]) == (if syntax then None else Some([Just(c)]))
      && ExactPattern([c]) == (if syntax then ['\\', c] else [c])
  {
    assert [c][1..] == "" && Read("") == Some([]);
    assert ExactPattern([c]) == Escaped(c) + ExactPattern([c][1..]) == Escaped(c);
    assert !(SEGMENT <= [c]) && !(REST <= [c]);
    assert [Just(c)] + [] == [Just(c)];
  }

  predicate Unspecial(text: string) {
    forall i :: 0 <= i < |text| ==> !Special(text[i])
  }

  lemma {:induction false} UnspecialKept(text: string)
    requires Unspecial(text)
    ensures ExactPattern(text) == text
  {
    if text != "" {
      UnspecialKept(text[1..]);
    }
  }

  /** The pattern `exactPattern` writes for a path matches that path alone. */
  lemma ExactMatches(path: string, asked: string)
    ensures Read(ExactPattern(path)) == Some(Spelled(path))
    ensures Matches(Read(ExactPattern(path)).value, asked) <==> asked == path
  {
    ReadExactly(path, "");
    AllBeforeSpelled(path, []);
    assert ExactPattern(path) + "" == ExactPattern(path);
    assert Spelled(path) + [] == Spelled(path);
    SpelledMatches(path, asked);
  }

  // ---- what a match writes ----

  /**
   * The group a `$` names by the digits after it, two of them where that many groups are there, and how many digits
   * name it.
   */
  function Named(after: string, count: nat): Option<(nat, nat)> {
    if after == "" || !Digit(after[0]) then None
    else
      var one := DigitValue(after[0]);
      var two := if |after| > 1 && Digit(after[1]) then 10 * one + DigitValue(after[1]) else 0;
      if 1 <= two <= count then Some((two, 2))
      else if 1 <= one <= count then Some((one, 1))
      else None
  }

  /**
   * A replacement template with a whole match's groups written in: GetSubstitution of ECMA-262, the match being all of
   * `path`.
   */
  function Written(dest: string, path: string, groups: seq<string>): string
    decreases |dest|
  {
    if dest == "" then ""
    else if dest[0] != '$' || |dest| == 1 then [dest[0]] + Written(dest[1..], path, groups)
    else if dest[1] == '$' then "$" + Written(dest[2..], path, groups)
    else if dest[1] == '&' then path + Written(dest[2..], path, groups)
    else if dest[1] == '`' || dest[1] == '\'' then Written(dest[2..], path, groups)
    else
      var named := Named(dest[1..], |groups|);
      if named.Some? then groups[named.value.0 - 1] + Written(dest[1 + named.value.1..], path, groups)
      else "$" + Written(dest[1..], path, groups)
  }

  /** Text with no `$` is written as it stands, before whatever follows it. */
  lemma {:induction false} WrittenPlain(text: string, rest: string, path: string, groups: seq<string>)
    requires '$' !in text
    ensures Written(text + rest, path, groups) == text + Written(rest, path, groups)
  {
    var dest := text + rest;
    if text == "" {
      assert dest == rest;
    } else {
      assert dest[0] == text[0] && dest[1..] == text[1..] + rest;
      WrittenPlain(text[1..], rest, path, groups);
      calc {
        Written(dest, path, groups);
        [text[0]] + Written(text[1..] + rest, path, groups);
        [text[0]] + (text[1..] + Written(rest, path, groups));
        text + Written(rest, path, groups);
      }
    }
  }

  function GroupCount(p: Pattern): nat {
    if p == [] then 0 else (if p[0].Just? then 0 else 1) + GroupCount(p[1..])
  }

  /** The template that writes a pattern's own text with its groups numbered in order from `next`. */
  function Template(p: Pattern, next: nat): string
    requires 1 <= next && next + GroupCount(p) <= 10
  {
    if p == [] then ""
    else match p[0]
      case Just(c) => [c] + Template(p[1..], next)
      case _ => ['$', '0' + next as char] + Template(p[1..], next + 1)
  }

  predicate Dollarless(p: Pattern) {
    forall i :: 0 <= i < |p| ==> p[i] != Just('$')
  }

  lemma OneDigit(next: nat, after: string, count: nat)
    requires 1 <= next <= count <= 9
    ensures Named(['0' + next as char] + after, count) == Some((next, 1))
  {
  }

  lemma {:induction false} FitsCount(p: Pattern, groups: seq<string>, path: string)
    requires Fits(p, groups, path)
    ensures |groups| == GroupCount(p)
    decreases |p|
  {
    if p != [] {
      match p[0]
      case Just(c) => FitsCount(p[1..], groups, path[1..]);
      case _ => FitsCount(p[1..], groups[1..], path[|groups[0]|..]);
    }
  }

  /** A pattern's own template, its groups written in, gives back the path they were taken from. */
  lemma {:induction false} TemplateGivesBack(p: Pattern, next: nat, groups: seq<string>, whole: string, path: string)
    requires 1 <= next <= |groups| + 1 <= 10 && Dollarless(p)
    requires Fits(p, groups[next - 1..], path)
    ensures next + GroupCount(p) <= 10
    ensures Written(Template(p, next), whole, groups) == path
    decreases |p|
  {
    FitsCount(p, groups[next - 1..], path);
    if p != [] {
      assert Dollarless(p[1..]);
      if p[0].Just? {
        TemplateGivesBack(p[1..], next, groups, whole, path[1..]);
        assert Template(p, next)[1..] == Template(p[1..], next);
        assert path == [path[0]] + path[1..];
      } else {
        var group := groups[next - 1..][0];
        assert groups[next - 1..][1..] == groups[next..];
        TemplateGivesBack(p[1..], next + 1, groups, whole, path[|group|..]);
        GroupWritten(next, Template(p[1..], next + 1), whole, groups);
        assert path == group + path[|group|..];
      }
    }
  }

  lemma GroupWritten(next: nat, after: string, whole: string, groups: seq<string>)
    requires 1 <= next <= |groups| <= 9
    ensures Written(['$', '0' + next as char] + after, whole, groups)
      == groups[next - 1] + Written(after, whole, groups)
  {
    var template := ['$', '0' + next as char] + after;
    assert template[1..] == ['0' + next as char] + after && template[2..] == after;
    OneDigit(next, after, |groups|);
  }

  /** The other forms a destination may hold: a dollar, the whole match, and what stands before and after it. */
  lemma DollarForms(rest: string, path: string, groups: seq<string>)
    ensures Written("$$" + rest, path, groups) == "$" + Written(rest, path, groups)
    ensures Written("$&" + rest, path, groups) == path + Written(rest, path, groups)
    ensures Written("$`" + rest, path, groups) == Written(rest, path, groups)
    ensures Written("$'" + rest, path, groups) == Written(rest, path, groups)
  {
    assert ("$$" + rest)[2..] == rest && ("$&" + rest)[2..] == rest;
    assert ("$`" + rest)[2..] == rest && ("$'" + rest)[2..] == rest;
  }

  /** Two digits name a group where there are as many, and otherwise the first alone does, and the second stands. */
  lemma TwoDigits(tens: char, ones: char, rest: string, path: string, groups: seq<string>)
    requires '1' <= tens <= '9' && Digit(ones)
    ensures var one, two := tens as int - '0' as int, 10 * (tens as int - '0' as int) + ones as int - '0' as int;
      Written(['$', tens, ones] + rest, path, groups) ==
        if two <= |groups| then groups[two - 1] + Written(rest, path, groups)
        else if one <= |groups| then groups[one - 1] + Written([ones] + rest, path, groups)
        else "$" + Written([tens, ones] + rest, path, groups)
  {
    var dest := ['$', tens, ones] + rest;
    assert dest[1..] == [tens, ones] + rest && dest[2..] == [ones] + rest && dest[3..] == rest;
  }
}
