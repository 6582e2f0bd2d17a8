/**
 * A URL's path set to a value: what the setter drops and escapes, and the dot segments it resolves (the path state of
 * the URL Standard). A value stands as its UTF-8 bytes, one character a byte.
 */
module Paths {
  import opened Basics
  import opened Text
  import Cutting

  /** What the setter of a URL's path drops: tabs and line ends. */
  predicate Dropped(c: char) {
    c == '\t' || c == '\n' || c == '\r'
  }

  /** What it escapes: the path percent-encode set (section 1.3 of the URL Standard). */
  predicate Escaped(c: char) {
    c <= ' ' || c > '~' || c in "\"#<>?^`{}"
  }

  function HexDigit(n: nat): char
    requires n < 16
  {
    "0123456789ABCDEF"[n]
  }

  function Escape(c: char): string {
    ['%', HexDigit(c as int / 16 % 16), HexDigit(c as int % 16)]
  }

  /** A byte of a value as the setter writes it into the path. */
  function Spelt(c: char): string {
    if Dropped(c) then "" else if c == '\\' then "/" else if Escaped(c) then Escape(c) else [c]
  }

  /** A value as the setter writes it, its segments not yet resolved. */
  function Spelling(value: string): string {
    if value == "" then "" else Spelt(value[0]) + Spelling(value[1..])
  }

  /**
   * Byte by byte (the path state of the URL Standard, and its path percent-encode set): tabs and line ends go, a
   * backslash is a slash, controls, spaces, what is no ASCII and nine of its marks are escaped, and the rest stands.
   */
  lemma SpeltExactly(c: char)
    ensures Spelt(c) ==
      if c as int in {0x09, 0x0A, 0x0D} then ""
      else if c as int == 0x5C then "/"
      else if c as int <= 0x20 || c as int >= 0x7F || c as int in {0x22, 0x23, 0x3C, 0x3E, 0x3F, 0x5E, 0x60, 0x7B, 0x7D}
      then ['%', HexDigit(c as int / 16 % 16), HexDigit(c as int % 16)]
      else [c]
  {
    MarkIs(c);
  }

  lemma MarkIs(c: char)
    ensures c in "\"#<>?^`{}" <==> c as int in {0x22, 0x23, 0x3C, 0x3E, 0x3F, 0x5E, 0x60, 0x7B, 0x7D}
  {
  }

  lemma {:induction false} SpellingConcat(a: string, b: string)
    ensures Spelling(a + b) == Spelling(a) + Spelling(b)
  {
    if a == "" {
      assert a + b == b;
    } else {
      assert (a + b)[0] == a[0] && (a + b)[1..] == a[1..] + b;
      SpellingConcat(a[1..], b);
      Regrouped(Spelt(a[0]), Spelling(a[1..]), Spelling(b));
    }
  }

  /** Text as a URL's path holds it: what the setter would drop or change is not in it, but as an escape. */
  predicate Held(text: string) {
    forall i {:trigger Spelt(text[i])} :: 0 <= i < |text| ==> Spelt(text[i]) == [text[i]]
  }

  lemma {:induction false} HeldSpelling(text: string)
    requires Held(text)
    ensures Spelling(text) == text
  {
    if text != "" {
      HeldSpelling(text[1..]);
    }
  }

  lemma HeldUnasked(text: string)
    requires Held(text)
    ensures '?' !in text
  {
    assert Spelt('?') == Escape('?');
  }

  lemma HexSpelt(n: nat)
    requires n < 16
    ensures Spelt(HexDigit(n)) == [HexDigit(n)]
  {
  }

  lemma SpeltHeld(c: char)
    ensures Held(Spelt(c))
  {
    HexSpelt(c as int / 16 % 16);
    HexSpelt(c as int % 16);
    assert Spelt('%') == "%" && Spelt('/') == "/";
  }

  lemma HeldConcat(a: string, b: string)
    ensures Held(a + b) <==> Held(a) && Held(b)
  {
    forall i | 0 <= i < |a| && Held(a + b) ensures Spelt(a[i]) == [a[i]] {
      assert (a + b)[i] == a[i];
    }
    forall i | 0 <= i < |b| && Held(a + b) ensures Spelt(b[i]) == [b[i]] {
      assert (a + b)[|a| + i] == b[i];
    }
  }

  /** What is spelt is held: the setter changes nothing of what it wrote. */
  lemma {:induction false} SpellingHeld(value: string)
    ensures Held(Spelling(value))
  {
    if value != "" {
      SpeltHeld(value[0]);
      SpellingHeld(value[1..]);
      HeldConcat(Spelt(value[0]), Spelling(value[1..]));
    }
  }

  // ---- dot segments ----

  predicate Dot(text: string) {
    text == "." || text == "%2e" || text == "%2E"
  }

  predicate DoubleDot(segment: string) {
    exists i :: 0 < i < |segment| && Dot(segment[..i]) && Dot(segment[i..])
  }

  predicate DotSegment(segment: string) {
    Dot(segment) || DoubleDot(segment)
  }

  /** The text of a path's segments. */
  function Joined(segments: seq<string>): string {
    if segments == [] then "" else "/" + segments[0] + Joined(segments[1..])
  }

  /** The segments of a path, which starts with a slash or is taken to. */
  function Segments(path: string): (segments: seq<string>)
    ensures segments != []
  {
    Cutting.Split(if path != "" && path[0] == '/' then path[1..] else path, '/')
  }

  function Shortened(done: seq<string>): seq<string> {
    if done == [] then [] else done[..|done| - 1]
  }

  /** The segments done with one more acted on: a double dot takes the last one off, and a dot none. */
  function Acted(done: seq<string>, segment: string): seq<string> {
    if DoubleDot(segment) then Shortened(done) else if Dot(segment) then done else done + [segment]
  }

  /** The segments that are left of some, behind those done; a dot segment at the end leaves an empty one. */
  function Resolve(done: seq<string>, segments: seq<string>): seq<string>
    requires segments != []
    decreases |segments|
  {
    var acted := Acted(done, segments[0]);
    if |segments| > 1 then Resolve(acted, segments[1..])
    else if DotSegment(segments[0]) then acted + [""]
    else acted
  }

  function Resolved(path: string): string {
    Joined(Resolve([], Segments(path)))
  }

  /** A path set to a value. */
  function PathSet(value: string): string {
    Resolved(Spelling(value))
  }

  predicate Dotless(segments: seq<string>) {
    forall i :: 0 <= i < |segments| ==> !DotSegment(segments[i])
  }

  /** A path as a URL has it: what a setter would drop, change or resolve is not in it, but as an escape. */
  predicate UrlPath(path: string) {
    "/" <= path && Held(path) && Dotless(Segments(path))
  }

  // ---- segments and their text ----

  lemma {:induction false} JoinedConcat(a: seq<string>, b: seq<string>)
    ensures Joined(a + b) == Joined(a) + Joined(b)
  {
    if a == [] {
      assert a + b == b;
    } else {
      assert (a + b)[0] == a[0] && (a + b)[1..] == a[1..] + b;
      JoinedConcat(a[1..], b);
      Regrouped("/" + a[0], Joined(a[1..]), Joined(b));
    }
  }

  lemma JoinedOne(segment: string)
    ensures Joined([segment]) == "/" + segment
  {
    assert [segment][1..] == [];
  }

  lemma {:induction false} JoinedSplit(text: string)
    ensures Joined(Cutting.Split(text, '/')) == "/" + text
    decreases |text|
  {
    var i := Cutting.FirstCut(text, '/');
    if i == |text| {
      JoinedOne(text);
    } else {
      JoinedSplit(text[i + 1..]);
      JoinedCut(text, i, Cutting.Split(text[i + 1..], '/'));
    }
  }

  lemma JoinedCut(text: string, i: nat, rest: seq<string>)
    requires i < |text| && text[i] == '/' && Joined(rest) == "/" + text[i + 1..]
    ensures Joined([text[..i]] + rest) == "/" + text
  {
    assert ([text[..i]] + rest)[1..] == rest;
    assert text == text[..i] + ("/" + text[i + 1..]);
    Regrouped("/", text[..i], "/" + text[i + 1..]);
  }

  lemma JoinedSegments(path: string)
    requires "/" <= path
    ensures Joined(Segments(path)) == path
  {
    JoinedSplit(path[1..]);
    assert path == "/" + path[1..];
  }

  /** Segments with no slash in them. */
  predicate Slashless(segments: seq<string>) {
    forall i :: 0 <= i < |segments| ==> '/' !in segments[i]
  }

  lemma {:induction false} SplitSlashless(text: string)
    ensures Slashless(Cutting.Split(text, '/'))
    decreases |text|
  {
    var i := Cutting.FirstCut(text, '/');
    if i < |text| {
      SplitSlashless(text[i + 1..]);
    } else {
      assert text[..i] == text;
    }
  }

  lemma JoinedTail(segments: seq<string>)
    requires segments != []
    ensures Joined(segments) != "" && Joined(segments)[1..] == segments[0] + Joined(segments[1..])
  {
  }

  lemma {:induction false} SplitJoined(segments: seq<string>)
    requires segments != [] && Slashless(segments)
    ensures Joined(segments) != "" && Cutting.Split(Joined(segments)[1..], '/') == segments
    decreases |segments|
  {
    var first, rest := segments[0], segments[1..];
    JoinedTail(segments);
    if rest == [] {
      JoinedLast(first, segments);
    } else {
      SplitJoined(rest);
      JoinedNext(first, rest);
      assert segments == [first] + rest;
    }
  }

  lemma JoinedLast(first: string, segments: seq<string>)
    requires segments == [first] && '/' !in first
    ensures Cutting.Split(first + Joined([]), '/') == segments
  {
    assert first + Joined([]) == first;
    Cutting.NoCut(first, '/');
  }

  lemma JoinedNext(first: string, rest: seq<string>)
    requires rest != [] && '/' !in first
    ensures Joined(rest) != ""
    ensures Cutting.Split(first + Joined(rest), '/') == [first] + Cutting.Split(Joined(rest)[1..], '/')
  {
    assert first + Joined(rest) == first + ['/'] + Joined(rest)[1..];
    Cutting.SplitAt(first, '/', Joined(rest)[1..]);
  }

  /** A dot is written plainly or as its escape, in either case, and two of them in any of the nine ways. */
  lemma DotSegmentsAre(segment: string)
    ensures Dot(segment) <==> segment in {".", "%2e", "%2E"}
    ensures DoubleDot(segment) <==> exists a, b :: Dot(a) && Dot(b) && segment == a + b
  {
    if i :| 0 < i < |segment| && Dot(segment[..i]) && Dot(segment[i..]) {
      assert segment == segment[..i] + segment[i..];
    }
    if a, b :| Dot(a) && Dot(b) && segment == a + b {
      assert segment[..|a|] == a && segment[|a|..] == b;
    }
  }

  /** Text with no dot and no escape has no dot segment. */
  lemma {:induction false} PlainDotless(text: string)
    requires '.' !in text && '%' !in text
    ensures Dotless(Cutting.Split(text, '/'))
    decreases |text|
  {
    var i := Cutting.FirstCut(text, '/');
    if DotSegment(text[..i]) {
      DotSegmentSpelt(text[..i]);
      assert false;
    }
    if i < |text| {
      PlainDotless(text[i + 1..]);
    } else {
      assert text[..i] == text;
    }
  }

  lemma DotSegmentSpelt(segment: string)
    requires DotSegment(segment)
    ensures '.' in segment || '%' in segment
  {
    if Dot(segment) {
      assert segment[0] == '.' || segment[0] == '%';
    } else {
      var i :| 0 < i < |segment| && Dot(segment[..i]) && Dot(segment[i..]);
      assert segment[0] == segment[..i][0];
    }
  }

  lemma DotSegmentShort(segment: string)
    requires DotSegment(segment)
    ensures |segment| <= 6
  {
  }

  // ---- what resolving takes away ----

  lemma JoinedBehind(done: seq<string>, segment: string)
    ensures Joined(done + [segment]) == Joined(done) + ("/" + segment)
  {
    JoinedConcat(done, [segment]);
    JoinedOne(segment);
  }

  lemma LastOff(done: seq<string>)
    requires done != []
    ensures Shortened(done) + [done[|done| - 1]] == done
  {
  }

  lemma ShortenedText(done: seq<string>)
    requires done != []
    ensures Joined(done) == Joined(Shortened(done)) + ("/" + done[|done| - 1])
  {
    LastOff(done);
    JoinedBehind(Shortened(done), done[|done| - 1]);
  }

  /** Nothing is in a text more often than in another, which is no shorter. */
  ghost predicate Within(a: string, b: string) {
    |a| <= |b| && forall c :: c != '/' ==> Count(a, c) <= Count(b, c)
  }

  lemma WithinPart(a: string, b: string)
    ensures Within(a, a + b) && Within(b, a + b)
  {
    forall c | c != '/' ensures Count(a, c) <= Count(a + b, c) && Count(b, c) <= Count(a + b, c) {
      CountConcat(a, b, c);
    }
  }

  lemma WithinBehind(a: string, b: string, rest: string)
    requires Within(a, b)
    ensures Within(a + rest, b + rest)
  {
    forall c | c != '/' ensures Count(a + rest, c) <= Count(b + rest, c) {
      CountConcat(a, rest, c);
      CountConcat(b, rest, c);
    }
  }

  lemma WithinTrans(a: string, b: string, c: string)
    requires Within(a, b) && Within(b, c)
    ensures Within(a, c)
  {
    forall d | d != '/' ensures Count(a, d) <= Count(c, d) {
      assert Count(a, d) <= Count(b, d) <= Count(c, d);
    }
  }

  lemma WithinSame(a: string)
    ensures Within(a, a)
  {
  }

  lemma WithinCancel(start: string, a: string, b: string)
    requires Within(start + a, start + b)
    ensures Within(a, b)
  {
    forall c | c != '/' ensures Count(a, c) <= Count(b, c) {
      CountConcat(start, a, c);
      CountConcat(start, b, c);
      assert Count(start + a, c) <= Count(start + b, c);
    }
  }

  lemma WithinSlash(a: string, b: string, c: string)
    requires Within(a, b)
    ensures Within(a + "/", b + ("/" + c))
  {
    forall d | d != '/' ensures Count(a + "/", d) <= Count(b + ("/" + c), d) {
      CountConcat(a, "/", d);
      CountConcat(b, "/" + c, d);
      CountOne('/', d);
      assert ['/'] == "/";
    }
  }

  /** One segment acted on leaves no more text than there was, and less for a dot segment. */
  lemma ActedWithin(done: seq<string>, segment: string)
    ensures Within(Joined(Acted(done, segment)), Joined(done) + ("/" + segment))
    ensures DotSegment(segment) ==> Within(Joined(Acted(done, segment)), Joined(done))
    ensures !DotSegment(segment) ==> Joined(Acted(done, segment)) == Joined(done) + ("/" + segment)
  {
    var all := Joined(done) + ("/" + segment);
    WithinPart(Joined(done), "/" + segment);
    if DotSegment(segment) {
      ShortenedWithin(done);
      WithinSame(Joined(done));
      WithinTrans(Joined(Acted(done, segment)), Joined(done), all);
    } else {
      JoinedBehind(done, segment);
      WithinSame(all);
    }
  }

  lemma ShortenedWithin(done: seq<string>)
    ensures Within(Joined(Shortened(done)), Joined(done))
  {
    if done == [] {
      WithinSame("");
    } else {
      ShortenedText(done);
      WithinPart(Joined(Shortened(done)), "/" + done[|done| - 1]);
    }
  }

  lemma LastWithin(done: seq<string>, segment: string)
    requires DotSegment(segment)
    ensures Within(Joined(Acted(done, segment) + [""]), Joined(done) + ("/" + segment))
    ensures |Joined(Acted(done, segment) + [""])| < |Joined(done) + ("/" + segment)|
  {
    var acted := Acted(done, segment);
    ActedWithin(done, segment);
    JoinedBehind(acted, "");
    assert "/" + "" == "/";
    WithinSlash(Joined(acted), Joined(done), segment);
    assert segment != "";
  }

  lemma JoinedFirst(done: seq<string>, segments: seq<string>)
    requires segments != []
    ensures Joined(done) + Joined(segments) == Joined(done) + ("/" + segments[0]) + Joined(segments[1..])
  {
    Regrouped(Joined(done), "/" + segments[0], Joined(segments[1..]));
  }

  /** Resolving leaves nothing more often than it stood, and less text in all where there is a dot segment. */
  lemma {:induction false} ResolveWithin(done: seq<string>, segments: seq<string>)
    requires segments != []
    ensures Within(Joined(Resolve(done, segments)), Joined(done) + Joined(segments))
    ensures |Joined(Resolve(done, segments))| == |Joined(done) + Joined(segments)| ==> Dotless(segments)
    decreases |segments|
  {
    var first, rest := segments[0], segments[1..];
    var acted := Acted(done, first);
    JoinedFirst(done, segments);
    ActedWithin(done, first);
    if rest == [] {
      assert Joined(done) + ("/" + first) + Joined([]) == Joined(done) + ("/" + first);
      if DotSegment(first) {
        LastWithin(done, first);
      }
    } else {
      ResolveWithin(acted, rest);
      WithinBehind(Joined(acted), Joined(done) + ("/" + first), Joined(rest));
      WithinTrans(Joined(Resolve(acted, rest)), Joined(acted) + Joined(rest),
        Joined(done) + ("/" + first) + Joined(rest));
      assert Dotless(rest) && !DotSegment(first) ==> Dotless(segments);
    }
  }

  lemma {:induction false} ResolveDotless(done: seq<string>, segments: seq<string>)
    requires segments != [] && Dotless(segments)
    ensures Resolve(done, segments) == done + segments
    decreases |segments|
  {
    var first, rest := segments[0], segments[1..];
    assert !DotSegment(first) && segments == [first] + rest;
    if rest != [] {
      ResolveDotless(done + [first], rest);
      Regrouped(done, [first], rest);
    }
  }

  /** What is left holds no dot segment and no slash, where what was done holds none. */
  lemma {:induction false} ResolveClean(done: seq<string>, segments: seq<string>)
    requires segments != [] && Dotless(done) && Slashless(done) && Slashless(segments)
    ensures Resolve(done, segments) != []
    ensures Dotless(Resolve(done, segments)) && Slashless(Resolve(done, segments))
    decreases |segments|
  {
    var acted := Acted(done, segments[0]);
    if |segments| > 1 {
      ResolveClean(acted, segments[1..]);
    } else {
      assert !DotSegment("");
    }
  }

  // ---- a path set ----

  predicate AllHeld(segments: seq<string>) {
    forall i :: 0 <= i < |segments| ==> Held(segments[i])
  }

  lemma {:induction false} JoinedHeld(segments: seq<string>)
    ensures Held(Joined(segments)) <==> AllHeld(segments)
  {
    if segments != [] {
      var first, rest := segments[0], segments[1..];
      JoinedHeld(rest);
      assert Spelt('/') == "/";
      assert Held("/");
      HeldConcat("/", first);
      HeldConcat("/" + first, Joined(rest));
      assert AllHeld(segments) <==> Held(first) && AllHeld(rest) by {
        assert segments == [first] + rest;
      }
    }
  }

  lemma {:induction false} ResolveHeld(done: seq<string>, segments: seq<string>)
    requires segments != [] && AllHeld(done) && AllHeld(segments)
    ensures AllHeld(Resolve(done, segments))
    decreases |segments|
  {
    if |segments| > 1 {
      ResolveHeld(Acted(done, segments[0]), segments[1..]);
    }
  }

  lemma SegmentsHeld(path: string)
    requires Held(path)
    ensures AllHeld(Segments(path))
  {
    var text := if path != "" && path[0] == '/' then path[1..] else path;
    JoinedSplit(text);
    HeldConcat("/", text);
    assert Spelt('/') == "/";
    JoinedHeld(Cutting.Split(text, '/'));
  }

  lemma SegmentsSlashless(path: string)
    ensures Slashless(Segments(path))
  {
    SplitSlashless(if path != "" && path[0] == '/' then path[1..] else path);
  }

  /** Whatever a path is set to, what stands is as a URL has it. */
  lemma SetIsUrlPath(value: string)
    ensures UrlPath(PathSet(value))
  {
    var spelling := Spelling(value);
    var segments := Segments(spelling);
    var left := Resolve([], segments);
    SpellingHeld(value);
    SegmentsHeld(spelling);
    SegmentsSlashless(spelling);
    ResolveClean([], segments);
    ResolveHeld([], segments);
    JoinedHeld(left);
    SplitJoined(left);
  }

  lemma ResolvedDotless(path: string)
    requires "/" <= path && Dotless(Segments(path))
    ensures Resolved(path) == path
  {
    ResolveDotless([], Segments(path));
    assert [] + Segments(path) == Segments(path);
    JoinedSegments(path);
  }

  /** Setting a path to a text leaves that text exactly where it is one that a URL's path may be. */
  lemma SetKeepsExactly(path: string)
    ensures PathSet(path) == path <==> UrlPath(path)
  {
    SetIsUrlPath(path);
    if UrlPath(path) {
      HeldSpelling(path);
      ResolvedDotless(path);
    }
  }

  /** What is resolved holds nothing more often than before, and is as long only where no segment is a dot's. */
  lemma ResolvedWithin(path: string)
    requires "/" <= path
    ensures Within(Resolved(path), path)
    ensures |Resolved(path)| == |path| ==> Dotless(Segments(path))
  {
    ResolveWithin([], Segments(path));
    JoinedSegments(path);
    assert Joined([]) + path == path;
  }

  lemma ResolvedSame(path: string, other: string)
    requires "/" <= path && |path| == |other|
    ensures Resolved(path) == other <==> path == other && Dotless(Segments(other))
  {
    if Resolved(path) == other {
      ResolvedWithin(path);
    }
    if Dotless(Segments(path)) {
      ResolvedDotless(path);
    }
  }

  // ---- under a first segment ----

  lemma SpellingUnder(first: string, value: string)
    requires Held(first)
    ensures Spelling("/" + first + "/" + value) == "/" + first + "/" + Spelling(value)
  {
    assert Spelt('/') == "/";
    HeldConcat("/", first);
    HeldConcat("/" + first, "/");
    HeldSpelling("/" + first + "/");
    SpellingConcat("/" + first + "/", value);
  }

  lemma SegmentsUnder(first: string, rest: string)
    requires '/' !in first
    ensures Segments("/" + first + "/" + rest) == [first] + Cutting.Split(rest, '/')
  {
    assert ("/" + first + "/" + rest)[1..] == first + ['/'] + rest;
    Cutting.SplitAt(first, '/', rest);
  }

  lemma ResolveFirst(first: string, rest: seq<string>)
    requires rest != [] && !DotSegment(first)
    ensures Resolve([], [first] + rest) == Resolve([first], rest)
  {
    assert ([first] + rest)[1..] == rest;
    assert [] + [first] == [first];
  }

  lemma PathSetUnder(first: string, value: string)
    requires Held(first) && '/' !in first && !DotSegment(first)
    ensures Cutting.Split(Spelling(value), '/') != []
    ensures PathSet("/" + first + "/" + value) == Joined(Resolve([first], Cutting.Split(Spelling(value), '/')))
  {
    SpellingUnder(first, value);
    SegmentsUnder(first, Spelling(value));
    ResolveFirst(first, Cutting.Split(Spelling(value), '/'));
  }

  lemma ResolveBehind(done: seq<string>, segment: string, rest: seq<string>)
    requires rest != []
    ensures Resolve(done, [segment] + rest) == Resolve(Acted(done, segment), rest)
  {
    assert ([segment] + rest)[1..] == rest;
  }

  lemma SpellingBehind(segment: string, value: string)
    requires Held(segment)
    ensures Spelling(segment + "/" + value) == segment + "/" + Spelling(value)
  {
    assert Spelt('/') == "/";
    HeldConcat(segment, "/");
    HeldSpelling(segment + "/");
    SpellingConcat(segment + "/", value);
  }

  lemma SplitBehind(segment: string, value: string)
    requires Held(segment) && '/' !in segment
    ensures Cutting.Split(Spelling(segment + "/" + value), '/') == [segment] + Cutting.Split(Spelling(value), '/')
  {
    SpellingBehind(segment, value);
    Cutting.SplitAt(segment, '/', Spelling(value));
  }

  lemma DotsAre()
    ensures Dot(".") && !DoubleDot(".") && DoubleDot("..") && !Dot("..")
    ensures Held(".") && Held("..")
  {
    var up := "..";
    assert up[..1] == "." && up[1..] == ".";
    assert Spelt('.') == ".";
  }

  /** A single dot at the start of a value leaves the path as it would be without. */
  lemma DotBehind(first: string, value: string)
    requires Held(first) && '/' !in first && !DotSegment(first)
    ensures PathSet("/" + first + "/" + ("." + "/" + value)) == PathSet("/" + first + "/" + value)
  {
    DotsAre();
    PathSetUnder(first, "." + "/" + value);
    PathSetUnder(first, value);
    SplitBehind(".", value);
    ResolveBehind([first], ".", Cutting.Split(Spelling(value), '/'));
  }

  lemma SegmentsTop(rest: string)
    ensures Segments("/" + rest) == Cutting.Split(rest, '/')
  {
    assert ("/" + rest)[1..] == rest;
  }

  lemma SpellingTop(value: string)
    ensures Spelling("/" + value) == "/" + Spelling(value)
  {
    assert ("/" + value)[1..] == value && Spelt('/') == "/";
  }

  lemma PathSetTop(value: string)
    ensures Cutting.Split(Spelling(value), '/') != []
    ensures PathSet("/" + value) == Joined(Resolve([], Cutting.Split(Spelling(value), '/')))
  {
    SpellingTop(value);
    SegmentsTop(Spelling(value));
  }

  /** A double dot there takes the first segment off. */
  lemma DoubleDotBehind(first: string, value: string)
    requires Held(first) && '/' !in first && !DotSegment(first)
    ensures PathSet("/" + first + "/" + (".." + "/" + value)) == PathSet("/" + value)
  {
    DotsAre();
    PathSetUnder(first, ".." + "/" + value);
    PathSetTop(value);
    SplitBehind("..", value);
    ResolveBehind([first], "..", Cutting.Split(Spelling(value), '/'));
    assert [first][..0] == [];
  }

  /** Behind a segment more, two of them do. */
  lemma TwoDoubleDotsBehind(first: string, next: string, value: string)
    requires Held(first) && '/' !in first && !DotSegment(first)
    requires Held(next) && '/' !in next && !DotSegment(next)
    ensures PathSet("/" + first + "/" + (next + "/" + (".." + "/" + (".." + "/" + value)))) == PathSet("/" + value)
  {
    var above := ".." + "/" + value;
    var segments := Cutting.Split(Spelling(above), '/');
    DotsAre();
    PathSetUnder(first, next + "/" + (".." + "/" + above));
    SplitBehind(next, ".." + "/" + above);
    SplitBehind("..", above);
    ResolveBehind([first], next, [".."] + segments);
    ResolveBehind([first] + [next], "..", segments);
    assert ([first] + [next])[..1] == [first];
    PathSetUnder(first, above);
    DoubleDotBehind(first, value);
  }

  /**
   * Whether segments taken one by one leave a path under its first: of what is done, only how many segments stand, and
   * whether the one at the bottom is that first one.
   */
  predicate StaysUnder(first: string, segments: seq<string>, height: nat, kept: bool)
    requires segments != []
    decreases |segments|
  {
    var segment := segments[0];
    var up := DoubleDot(segment);
    var next := if up then if height == 0 then 0 else height - 1 else if Dot(segment) then height else height + 1;
    var still := if up then kept && height > 1 else if Dot(segment) || height > 0 then kept else segment == first;
    if |segments| > 1 then StaysUnder(first, segments[1..], next, still)
    else still && (next > 1 || DotSegment(segment))
  }

  lemma {:induction false} StaysUnderExactly(first: string, done: seq<string>, segments: seq<string>)
    requires segments != []
    ensures var left := Resolve(done, segments);
      |left| > 1 && left[0] == first <==> StaysUnder(first, segments, |done|, done != [] && done[0] == first)
    decreases |segments|
  {
    if |segments| > 1 {
      StaysUnderExactly(first, Acted(done, segments[0]), segments[1..]);
    }
  }

  lemma StartsSame(first: string, head: string, more: string)
    requires '/' !in first && '/' !in head && (more != "" ==> more[0] == '/')
    ensures first + "/" <= head + more <==> head == first && more != ""
  {
    var text := head + more;
    assert more != "" ==> text == head + "/" + more[1..];
    if first + "/" <= text {
      assert text[|first|] == '/' && text[..|first|] == first;
      Cutting.UniqueCut(text, '/', |first|);
      assert more == "" ==> text == head;
      assert text[..|head|] == head;
      Cutting.UniqueCut(text, '/', |head|);
    }
  }

  lemma JoinedUnder(first: string, segments: seq<string>)
    requires Slashless(segments) && '/' !in first
    ensures "/" + first + "/" <= Joined(segments) <==> |segments| > 1 && segments[0] == first
  {
    if segments != [] {
      var head, more := segments[0], Joined(segments[1..]);
      StartsSame(first, head, more);
      BehindSlash(first + "/", head + more);
      Regrouped("/", first, "/");
      Regrouped("/", head, more);
    }
  }

  lemma BehindSlash(a: string, b: string)
    ensures "/" + a <= "/" + b <==> a <= b
  {
    assert ("/" + b)[1..] == b && ("/" + a)[1..] == a;
    assert "/" + a <= "/" + b ==> ("/" + b)[..|a| + 1] == "/" + a;
    assert a <= b ==> b == a + b[|a|..];
  }

  /** A path set to a value behind a first segment is under that segment exactly where the value's segments stay so. */
  lemma UnderExactly(first: string, value: string)
    requires Held(first) && '/' !in first && !DotSegment(first)
    ensures "/" + first + "/" <= PathSet("/" + first + "/" + value)
      <==> StaysUnder(first, Cutting.Split(Spelling(value), '/'), 1, true)
  {
    var segments := Cutting.Split(Spelling(value), '/');
    PathSetUnder(first, value);
    SplitSlashless(Spelling(value));
    ResolveClean([first], segments);
    StaysUnderExactly(first, [first], segments);
    JoinedUnder(first, Resolve([first], segments));
  }
}
