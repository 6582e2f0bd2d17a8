/**
 * Sequences cut at a separator, as `split` cuts them, and UTF-8 (section 3 of RFC 3629), which no separator below 0x80
 * is lost in.
 */
module Cutting {
  import opened Basics

  newtype Byte = b: int | 0 <= b < 256

  const NEWLINE: Byte := 10

  function Map<S, T>(f: S -> T, xs: seq<S>): seq<T> {
    seq(|xs|, i requires 0 <= i < |xs| => f(xs[i]))
  }

  /** Where the first separator stands, or the length where there is none. */
  function FirstCut<T(==)>(s: seq<T>, at: T): (i: nat)
    ensures i <= |s| && at !in s[..i] && (i < |s| ==> s[i] == at)
  {
    if s == [] || s[0] == at then 0 else 1 + FirstCut(s[1..], at)
  }

  /** `split`: the pieces between separators, one more than there are of them. */
  function Split<T(==)>(s: seq<T>, at: T): seq<seq<T>>
    decreases |s|
  {
    var i := FirstCut(s, at);
    if i == |s| then [s] else [s[..i]] + Split(s[i + 1..], at)
  }

  function NotEmpty<T>(pieces: seq<seq<T>>): seq<seq<T>> {
    if pieces == [] then []
    else if |pieces[0]| == 0 then NotEmpty(pieces[1..])
    else [pieces[0]] + NotEmpty(pieces[1..])
  }

  /** The lines of a text, those with anything in them. */
  function LinesIn<T(==)>(s: seq<T>, at: T): seq<seq<T>> {
    NotEmpty(Split(s, at))
  }

  /** Just past the last separator: `lastIndexOf` and one. */
  function WholeEnd<T(==)>(s: seq<T>, at: T): (end: nat)
    ensures end <= |s| && at !in s[end..] && (end > 0 ==> s[end - 1] == at)
  {
    if s == [] then 0 else if s[|s| - 1] == at then |s| else WholeEnd(s[..|s| - 1], at)
  }

  predicate AtBoundary<T(==)>(s: seq<T>, at: T, i: nat)
    requires i <= |s|
  {
    i == 0 || s[i - 1] == at
  }

  lemma {:induction false} FirstCutIn<T>(s: seq<T>, at: T, rest: seq<T>)
    ensures FirstCut(s, at) < |s| ==> FirstCut(s + rest, at) == FirstCut(s, at)
    ensures FirstCut(s, at) == |s| ==> FirstCut(s + rest, at) == |s| + FirstCut(rest, at)
  {
    if s == [] {
      assert s + rest == rest;
    } else if s[0] != at {
      FirstCutIn(s[1..], at, rest);
      assert (s + rest)[1..] == s[1..] + rest;
    }
  }

  lemma {:induction false} NotEmptyConcat<T>(a: seq<seq<T>>, b: seq<seq<T>>)
    ensures NotEmpty(a + b) == NotEmpty(a) + NotEmpty(b)
  {
    if a == [] {
      assert a + b == b;
    } else {
      assert (a + b)[0] == a[0] && (a + b)[1..] == a[1..] + b;
      NotEmptyConcat(a[1..], b);
      Regrouped([a[0]], NotEmpty(a[1..]), NotEmpty(b));
    }
  }

  /** Text that ends at a separator has no line running on into what comes after. */
  lemma {:induction false} LinesConcat<T>(a: seq<T>, b: seq<T>, at: T)
    requires AtBoundary(a, at, |a|)
    ensures LinesIn(a + b, at) == LinesIn(a, at) + LinesIn(b, at)
    decreases |a|
  {
    if a == [] {
      assert a + b == b;
      var pieces: seq<seq<T>> := [[]];
      assert Split(a, at) == pieces && pieces[1..] == [];
      assert NotEmpty(pieces) == NotEmpty(pieces[1..]) == [];
    } else {
      var i := FirstCut(a, at);
      assert a[..|a|] == a && a[|a| - 1] == at;
      var head, rest := a[..i], a[i + 1..];
      calc {
        LinesIn(a + b, at);
        { assert a + b == head + [at] + (rest + b); LinesAt(head, at, rest + b); }
        NotEmpty([head]) + LinesIn(rest + b, at);
        { LinesConcat(rest, b, at); }
        NotEmpty([head]) + (LinesIn(rest, at) + LinesIn(b, at));
        (NotEmpty([head]) + LinesIn(rest, at)) + LinesIn(b, at);
        { assert a == head + [at] + rest; LinesAt(head, at, rest); }
        LinesIn(a, at) + LinesIn(b, at);
      }
    }
  }

  lemma LinesAt<T>(head: seq<T>, at: T, rest: seq<T>)
    requires at !in head
    ensures LinesIn(head + [at] + rest, at) == NotEmpty([head]) + LinesIn(rest, at)
  {
    SplitAt(head, at, rest);
    NotEmptyConcat([head], Split(rest, at));
  }

  /** A piece with no separator in it, cut off at the separator after it. */
  lemma SplitAt<T>(head: seq<T>, at: T, rest: seq<T>)
    requires at !in head
    ensures Split(head + [at] + rest, at) == [head] + Split(rest, at)
  {
    var s := head + [at] + rest;
    assert s[..|head|] == head && s[|head|] == at && s[|head| + 1..] == rest;
    UniqueCut(s, at, |head|);
  }

  lemma {:induction false} UniqueCut<T>(s: seq<T>, at: T, i: nat)
    requires i < |s| && s[i] == at && at !in s[..i]
    ensures FirstCut(s, at) == i
  {
    if i > 0 {
      assert s[..i][0] == s[0] && s[..i][1..] == s[1..][..i - 1];
      UniqueCut(s[1..], at, i - 1);
    }
  }

  lemma {:induction false} NoCut<T>(s: seq<T>, at: T)
    requires at !in s
    ensures Split(s, at) == [s] && FirstCut(s, at) == |s|
  {
    if s != [] {
      NoCut(s[1..], at);
    }
  }

  /** One line and its separator: that line. */
  lemma OneLine<T>(line: seq<T>, at: T)
    requires at !in line
    ensures LinesIn(line + [at], at) == if line == [] then [] else [line]
  {
    assert line + [at] == line + [at] + [];
    SplitAt(line, at, []);
    var pieces: seq<seq<T>> := [line] + [[]];
    assert Split<T>([], at) == [[]] && Split(line + [at], at) == pieces;
    assert pieces[1..] == [[]] && pieces[1..][1..] == [];
    assert NotEmpty(pieces[1..]) == [];
  }

  // ---- UTF-8 ----

  /** A character: no surrogate is one. */
  type CodePoint = c: nat | c < 0x110000 && !(0xD800 <= c < 0xE000)

  const LINE_FEED: CodePoint := 10

  /** One character's bytes. */
  function Encoded(c: CodePoint): seq<Byte> {
    if c < 0x80 then [c as Byte]
    else if c < 0x800 then [(0xC0 + c / 0x40) as Byte, (0x80 + c % 0x40) as Byte]
    else if c < 0x10000 then
      [(0xE0 + c / 0x1000) as Byte, (0x80 + c / 0x40 % 0x40) as Byte, (0x80 + c % 0x40) as Byte]
    else
      [(0xF0 + c / 0x40000) as Byte, (0x80 + c / 0x1000 % 0x40) as Byte, (0x80 + c / 0x40 % 0x40) as Byte,
       (0x80 + c % 0x40) as Byte]
  }

  function EncodedText(text: seq<CodePoint>): seq<Byte> {
    if text == [] then [] else Encoded(text[0]) + EncodedText(text[1..])
  }

  /** The examples of section 7 of RFC 3629: a character of each length. */
  lemma EncodedExamples()
    ensures Encoded(0x41) == [0x41] && Encoded(0x391) == [0xCE, 0x91] && Encoded(0x2262) == [0xE2, 0x89, 0xA2]
    ensures Encoded(0x233B4) == [0xF0, 0xA3, 0x8E, 0xB4]
  {
  }

  /** A newline byte is a line feed, and never lies inside another character. */
  lemma NewlineAlone(c: CodePoint)
    ensures NEWLINE in Encoded(c) <==> c == LINE_FEED
    ensures Encoded(LINE_FEED) == [NEWLINE]
  {
  }

  lemma {:induction false} EncodedConcat(a: seq<CodePoint>, b: seq<CodePoint>)
    ensures EncodedText(a + b) == EncodedText(a) + EncodedText(b)
  {
    if a == [] {
      assert a + b == b;
    } else {
      calc {
        EncodedText(a + b);
        { assert (a + b)[0] == a[0] && (a + b)[1..] == a[1..] + b; }
        Encoded(a[0]) + EncodedText(a[1..] + b);
        { EncodedConcat(a[1..], b); }
        Encoded(a[0]) + (EncodedText(a[1..]) + EncodedText(b));
        { Regrouped(Encoded(a[0]), EncodedText(a[1..]), EncodedText(b)); }
        EncodedText(a) + EncodedText(b);
      }
    }
  }

  lemma {:induction false} NoNewline(text: seq<CodePoint>)
    requires LINE_FEED !in text
    ensures NEWLINE !in EncodedText(text)
  {
    if text != [] {
      NewlineAlone(text[0]);
      NoNewline(text[1..]);
    }
  }

  lemma MapFirst<S, T>(f: S -> T, x: S, xs: seq<S>)
    ensures Map(f, [x] + xs) == [f(x)] + Map(f, xs)
  {
  }

  /** Cutting a file's bytes at newlines and cutting its characters at line feeds give the same lines. */
  lemma {:induction false} SplitEncoded(text: seq<CodePoint>)
    ensures Split(EncodedText(text), NEWLINE) == Map(EncodedText, Split(text, LINE_FEED))
    decreases |text|
  {
    var i := FirstCut(text, LINE_FEED);
    if i == |text| {
      assert text[..i] == text;
      NoNewline(text);
      NoCut(EncodedText(text), NEWLINE);
    } else {
      var head, rest := text[..i], text[i + 1..];
      assert text == head + [LINE_FEED] + rest;
      EncodedCut(head, rest);
      NoNewline(head);
      SplitAt(EncodedText(head), NEWLINE, EncodedText(rest));
      SplitEncoded(rest);
      MapFirst(EncodedText, head, Split(rest, LINE_FEED));
    }
  }

  lemma EncodedCut(head: seq<CodePoint>, rest: seq<CodePoint>)
    ensures EncodedText(head + [LINE_FEED] + rest) == EncodedText(head) + [NEWLINE] + EncodedText(rest)
  {
    EncodedConcat(head, [LINE_FEED]);
    EncodedConcat(head + [LINE_FEED], rest);
    NewlineAlone(LINE_FEED);
    assert EncodedText([LINE_FEED]) == Encoded(LINE_FEED) + EncodedText([LINE_FEED][1..]) == [NEWLINE];
  }

  lemma {:induction false} NotEmptyEncoded(pieces: seq<seq<CodePoint>>)
    ensures NotEmpty(Map(EncodedText, pieces)) == Map(EncodedText, NotEmpty(pieces))
  {
    if pieces != [] {
      assert pieces == [pieces[0]] + pieces[1..];
      MapFirst(EncodedText, pieces[0], pieces[1..]);
      NotEmptyEncoded(pieces[1..]);
      assert Map(EncodedText, pieces)[1..] == Map(EncodedText, pieces[1..]);
      MapFirst(EncodedText, pieces[0], NotEmpty(pieces[1..]));
      assert pieces[0] != [] ==> EncodedText(pieces[0]) == Encoded(pieces[0][0]) + EncodedText(pieces[0][1..]);
    }
  }

  /** The lines a file's bytes are cut into are its text's lines, character for character, whatever the text. */
  lemma LinesEncoded(text: seq<CodePoint>)
    ensures LinesIn(EncodedText(text), NEWLINE) == Map(EncodedText, LinesIn(text, LINE_FEED))
  {
    SplitEncoded(text);
    NotEmptyEncoded(Split(text, LINE_FEED));
  }

  /** How many bytes the character starting with a byte has. */
  function LengthBy(first: Byte): nat {
    if first < 0x80 then 1 else if first < 0xE0 then 2 else if first < 0xF0 then 3 else 4
  }

  lemma LengthSaid(c: CodePoint)
    ensures |Encoded(c)| == LengthBy(Encoded(c)[0]) > 0
  {
  }

  /** The character a character's bytes spell. */
  function Character(bytes: seq<Byte>): int {
    match |bytes|
    case 1 => bytes[0] as int
    case 2 => (bytes[0] as int - 0xC0) * 0x40 + (bytes[1] as int - 0x80)
    case 3 => (bytes[0] as int - 0xE0) * 0x1000 + (bytes[1] as int - 0x80) * 0x40 + (bytes[2] as int - 0x80)
    case 4 =>
      (bytes[0] as int - 0xF0) * 0x40000 + (bytes[1] as int - 0x80) * 0x1000 + (bytes[2] as int - 0x80) * 0x40
      + (bytes[3] as int - 0x80)
    case _ => -1
  }

  lemma SixBits(c: nat)
    ensures c == c / 0x40 * 0x40 + c % 0x40
  {
  }

  lemma HigherBits(c: nat)
    ensures c / 0x1000 == c / 0x40 / 0x40 && c / 0x40000 == c / 0x1000 / 0x40
  {
  }

  lemma CharacterBack(c: CodePoint)
    ensures Character(Encoded(c)) == c
  {
    SixBits(c);
    if c >= 0x800 {
      HigherBits(c);
      SixBits(c / 0x40);
      SixBits(c / 0x1000);
    }
  }

  /** Bytes that start with a character's encoding start with that character's alone. */
  lemma OneCharacter(c: CodePoint, d: CodePoint, restC: seq<Byte>, restD: seq<Byte>)
    requires Encoded(c) + restC == Encoded(d) + restD
    ensures c == d && restC == restD
  {
    var bytes := Encoded(c) + restC;
    LengthSaid(c);
    LengthSaid(d);
    assert bytes[0] == Encoded(c)[0] == Encoded(d)[0];
    var n := |Encoded(c)|;
    assert bytes[..n] == Encoded(c) && bytes[..n] == Encoded(d) && bytes[n..] == restC && bytes[n..] == restD;
    CharacterBack(c);
    CharacterBack(d);
  }

  lemma EncodedSome(text: seq<CodePoint>)
    ensures EncodedText(text) == [] <==> text == []
  {
    if text != [] {
      LengthSaid(text[0]);
    }
  }

  /** A text is read back from its bytes in one way only. */
  lemma {:induction false} EncodedOnce(a: seq<CodePoint>, b: seq<CodePoint>)
    requires EncodedText(a) == EncodedText(b)
    ensures a == b
  {
    EncodedSome(a);
    EncodedSome(b);
    if a != [] {
      OneCharacter(a[0], b[0], EncodedText(a[1..]), EncodedText(b[1..]));
      EncodedOnce(a[1..], b[1..]);
      assert a == [a[0]] + a[1..] && b == [b[0]] + b[1..];
    }
  }

  /** A text spelled out, each of its characters by a spelling of its own. */
  function Spelled<S, T>(spell: S -> seq<T>, text: seq<S>): seq<T> {
    if text == [] then [] else spell(text[0]) + Spelled(spell, text[1..])
  }

  /** Where a separator is one character's whole spelling, and stands in no other's. */
  ghost predicate Separates<S(!new), T>(spell: S -> seq<T>, at: T) {
    forall c: S :: at in spell(c) ==> spell(c) == [at]
  }

  lemma CutPast<T>(first: seq<T>, rest: seq<T>, i: nat)
    requires |first| <= i <= |first + rest|
    ensures (first + rest)[..i] == first + rest[..i - |first|] && (first + rest)[i..] == rest[i - |first|..]
  {
  }

  lemma BoundaryPast<T>(first: seq<T>, rest: seq<T>, at: T, i: nat)
    requires 0 < i <= |first + rest| && AtBoundary(first + rest, at, i) && (at in first ==> first == [at])
    ensures |first| <= i && AtBoundary(rest, at, i - |first|)
  {
    if i <= |first| {
      assert first[i - 1] == (first + rest)[i - 1];
    } else {
      assert rest[i - |first| - 1] == (first + rest)[i - 1];
    }
  }

  /** A place just past such a separator parts the text: what is spelled on either side is a text's. */
  lemma {:induction false} SpelledParts<S(!new), T>(spell: S -> seq<T>, text: seq<S>, at: T, i: nat)
    returns (head: seq<S>, tail: seq<S>)
    requires Separates(spell, at)
    requires i <= |Spelled(spell, text)| && AtBoundary(Spelled(spell, text), at, i)
    ensures Spelled(spell, head) == Spelled(spell, text)[..i] && Spelled(spell, tail) == Spelled(spell, text)[i..]
  {
    if i == 0 {
      head, tail := [], text;
      assert Spelled(spell, text)[0..] == Spelled(spell, text);
    } else {
      var first, rest := spell(text[0]), Spelled(spell, text[1..]);
      BoundaryPast(first, rest, at, i);
      var more;
      more, tail := SpelledParts(spell, text[1..], at, i - |first|);
      head := [text[0]] + more;
      assert head[1..] == more;
      CutPast(first, rest, i);
    }
  }

  lemma {:induction false} EncodedSpelled(text: seq<CodePoint>)
    ensures EncodedText(text) == Spelled(Encoded, text)
  {
    if text != [] {
      EncodedSpelled(text[1..]);
    }
  }

  /** A place just past a newline byte of a text's bytes parts the text there: its bytes on either side are a text's. */
  lemma BoundaryText(text: seq<CodePoint>, i: nat) returns (head: seq<CodePoint>, tail: seq<CodePoint>)
    requires i <= |EncodedText(text)| && AtBoundary(EncodedText(text), NEWLINE, i)
    ensures EncodedText(head) == EncodedText(text)[..i] && EncodedText(tail) == EncodedText(text)[i..]
  {
    forall c: CodePoint | NEWLINE in Encoded(c) ensures Encoded(c) == [NEWLINE] {
      NewlineAlone(c);
    }
    EncodedSpelled(text);
    head, tail := SpelledParts(Encoded, text, NEWLINE, i);
    EncodedSpelled(head);
    EncodedSpelled(tail);
  }

  /** What stands between two such places of a text's bytes is the bytes of a text. */
  lemma StretchText(text: seq<CodePoint>, i: nat, j: nat) returns (mid: seq<CodePoint>)
    requires i <= j <= |EncodedText(text)|
    requires AtBoundary(EncodedText(text), NEWLINE, i) && AtBoundary(EncodedText(text), NEWLINE, j)
    ensures EncodedText(text)[i..j] == EncodedText(mid)
  {
    var bytes := EncodedText(text);
    var head, after := BoundaryText(text, j);
    assert i > 0 ==> bytes[..j][i - 1] == bytes[i - 1];
    var before;
    before, mid := BoundaryText(head, i);
    assert bytes[..j][i..] == bytes[i..j];
  }
}
