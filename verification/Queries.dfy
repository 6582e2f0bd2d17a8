/**
 * A query's text read as pairs, and a path set from a value of one: form decoding, and the escapes a path's setter
 * writes. A value stands as its UTF-8 bytes, one character a byte, so decoding and escaping are over bytes as the
 * platform's are.
 */
module Queries {
  import opened Basics
  import opened Text
  import opened Paths
  import Cutting

  type Pair = (string, string)

  // ---- a query's text ----

  function HexValue(c: char): Option<nat> {
    if '0' <= c <= '9' then Some(c as int - '0' as int)
    else if 'a' <= c <= 'f' then Some(c as int - 'a' as int + 10)
    else if 'A' <= c <= 'F' then Some(c as int - 'A' as int + 10)
    else None
  }

  /**
   * Form decoding (section 5.1 of the URL Standard), a value standing as its UTF-8 bytes, each the one character of its
   * number.
   */
  function Decoded(text: string): string {
    if text == "" then ""
    else if text[0] == '+' then " " + Decoded(text[1..])
    else if text[0] == '%' && |text| > 2 && HexValue(text[1]).Some? && HexValue(text[2]).Some? then
      [(16 * HexValue(text[1]).value + HexValue(text[2]).value) as char] + Decoded(text[3..])
    else [text[0]] + Decoded(text[1..])
  }

  function PairOf(piece: string): Pair {
    var i := Cutting.FirstCut(piece, '=');
    (Decoded(piece[..i]), if i == |piece| then "" else Decoded(piece[i + 1..]))
  }

  function PairsOf(pieces: seq<string>): seq<Pair> {
    if pieces == [] then [] else [PairOf(pieces[0])] + PairsOf(pieces[1..])
  }

  function Pairs(query: string): seq<Pair> {
    PairsOf(Cutting.LinesIn(query, '&'))
  }

  // ---- what the setter writes reads back ----

  lemma HexRead(n: nat)
    requires n < 16
    ensures HexValue(HexDigit(n)) == Some(n)
  {
  }

  /** An escape's digits may be of either case, and of nothing else. */
  lemma HexEither(n: nat, c: char)
    requires n < 16
    ensures HexValue("0123456789abcdef"[n]) == Some(n) && HexValue("0123456789ABCDEF"[n]) == Some(n)
    ensures HexValue(c).Some? <==> '0' <= c <= '9' || 'a' <= c <= 'f' || 'A' <= c <= 'F'
  {
  }

  /** An escape is the byte's two digits, the high one first: decoding it gives the byte. */
  lemma EscapeReadsBack(c: char, rest: string)
    requires c as int < 256
    ensures Decoded(Escape(c) + rest) == [c] + Decoded(rest)
  {
    var text := Escape(c) + rest;
    HexRead(c as int / 16);
    HexRead(c as int % 16);
    assert text[0] == '%' && text[1] == HexDigit(c as int / 16) && text[2] == HexDigit(c as int % 16);
    assert text[3..] == rest;
  }

  /** What the setter writes as it stands, or as an escape that a decoder undoes. */
  predicate Undone(c: char) {
    c as int < 256 && !Dropped(c) && c != '\\' && c != '%' && c != '+'
  }

  /** A value decodes from what the setter writes of it, but for what is dropped, and what decoding reads otherwise. */
  lemma {:induction false} SpellingReadsBack(value: string)
    requires forall i :: 0 <= i < |value| ==> Undone(value[i])
    ensures Decoded(Spelling(value)) == value
  {
    if value != "" {
      var c, rest := value[0], value[1..];
      SpellingReadsBack(rest);
      if Escaped(c) {
        EscapeReadsBack(c, Spelling(rest));
      } else {
        assert ([c] + Spelling(rest))[1..] == Spelling(rest);
      }
      assert value == [c] + rest;
    }
  }

  // ---- what comes back of a text carried in a query ----

  predicate EscapeAhead(text: string) {
    |text| > 2 && text[0] == '%' && HexValue(text[1]).Some? && HexValue(text[2]).Some?
  }

  function ByteAhead(text: string): char
    requires EscapeAhead(text)
  {
    (16 * HexValue(text[1]).value + HexValue(text[2]).value) as char
  }

  /** A text whose every escape is the one the setter would write, and with no `+`, which decoding reads as a space. */
  predicate Kept(text: string)
    decreases |text|
  {
    text == "" ||
    if EscapeAhead(text) then Spelt(ByteAhead(text)) == text[..3] && Kept(text[3..])
    else text[0] != '+' && Kept(text[1..])
  }

  /** What comes back of one `+`, one escape, or one character. */
  function Back(text: string): string {
    Spelling(Decoded(text))
  }

  lemma BackStep(text: string)
    requires text != ""
    ensures EscapeAhead(text) ==> Back(text) == Spelt(ByteAhead(text)) + Back(text[3..])
    ensures !EscapeAhead(text) && text[0] == '+' ==> Back(text) == "%20" + Back(text[1..])
    ensures !EscapeAhead(text) && text[0] != '+' ==> Back(text) == Spelt(text[0]) + Back(text[1..])
  {
    var rest := if EscapeAhead(text) then text[3..] else text[1..];
    var first := if EscapeAhead(text) then ByteAhead(text) else if text[0] == '+' then ' ' else text[0];
    assert Decoded(text) == [first] + Decoded(rest);
    assert ([first] + Decoded(rest))[1..] == Decoded(rest);
    assert Spelt(' ') == "%20";
  }

  /** The escapes read back as another character alone, as nothing, and as `%`. */
  datatype Tally = Tally(bare: nat, gone: nat, percent: nat, plus: nat)

  function Tallied(text: string): Tally
    decreases |text|
  {
    if text == "" then Tally(0, 0, 0, 0)
    else if EscapeAhead(text) then
      var t, spelt := Tallied(text[3..]), Spelt(ByteAhead(text));
      if spelt == "%" then t.(percent := t.percent + 1)
      else if |spelt| == 1 then t.(bare := t.bare + 1)
      else if |spelt| == 0 then t.(gone := t.gone + 1)
      else t
    else
      var t := Tallied(text[1..]);
      if text[0] == '+' then t.(plus := t.plus + 1) else t
  }

  lemma EscapeCounts(text: string, d: char)
    requires EscapeAhead(text) && d in "%+&"
    ensures Count(text[..3], d) == if d == '%' then 1 else 0
  {
    CountThree(text[0], text[1], text[2], d);
    CountOne(text[0], d);
    CountOne(text[1], d);
    CountOne(text[2], d);
    assert text[..3] == [text[0], text[1], text[2]];
  }

  lemma SpeltCounts(c: char, d: char)
    requires d in "%+&"
    ensures |Spelt(c)| == 0 || |Spelt(c)| == 1 || |Spelt(c)| == 3
    ensures |Spelt(c)| == 0 ==> Count(Spelt(c), d) == 0
    ensures |Spelt(c)| == 1 ==> Count(Spelt(c), d) == if Spelt(c)[0] == d then 1 else 0
    ensures |Spelt(c)| == 3 ==> Count(Spelt(c), d) == if d == '%' then 1 else 0
  {
    if Spelt(c) == Escape(c) {
      CountThree('%', HexDigit(c as int / 16 % 16), HexDigit(c as int % 16), d);
      CountOne('%', d);
      HexPlain(c as int / 16 % 16, d);
      HexPlain(c as int % 16, d);
    } else if |Spelt(c)| == 1 {
      CountOne(Spelt(c)[0], d);
      assert Spelt(c) == [Spelt(c)[0]];
    }
  }

  lemma HexPlain(n: nat, d: char)
    requires n < 16 && d in "%+&"
    ensures Count([HexDigit(n)], d) == 0
  {
    CountOne(HexDigit(n), d);
  }

  /** How often `%`, `+` and `&` stand in a text and in what comes back of it, and how long the two are. */
  ghost predicate Tallies(text: string, back: string, t: Tally) {
    && Count(back, '%') + t.bare + t.gone == Count(text, '%') + t.plus
    && Count(back, '+') + Count(back, '&') <= t.bare + Count(text, '&')
    && Count(text, '+') == t.plus
    && |back| + 2 * t.bare + 3 * t.gone + 2 * t.percent == |text| + 2 * t.plus
  }

  lemma {:induction false} TallyBack(text: string)
    requires Held(text)
    ensures Tallies(text, Back(text), Tallied(text))
    decreases |text|
  {
    if text != "" {
      BackStep(text);
      if EscapeAhead(text) {
        TallyEscape(text);
      } else if text[0] == '+' {
        TallyPlus(text);
      } else {
        TallyChar(text);
      }
    }
  }

  lemma {:induction false} TallyEscape(text: string)
    requires Held(text) && EscapeAhead(text) && Back(text) == Spelt(ByteAhead(text)) + Back(text[3..])
    ensures Tallies(text, Back(text), Tallied(text))
    decreases |text|, 0
  {
    var spelt, rest := Spelt(ByteAhead(text)), text[3..];
    TallyBack(rest);
    assert text == text[..3] + rest;
    forall d | d in "%+&"
      ensures Count(Back(text), d) == Count(spelt, d) + Count(Back(rest), d)
      ensures Count(text, d) == (if d == '%' then 1 else 0) + Count(rest, d)
    {
      CountConcat(spelt, Back(rest), d);
      CountConcat(text[..3], rest, d);
      EscapeCounts(text, d);
    }
    SpeltCounts(ByteAhead(text), '%');
    SpeltCounts(ByteAhead(text), '+');
    SpeltCounts(ByteAhead(text), '&');
  }

  lemma {:induction false} TallyPlus(text: string)
    requires Held(text) && text != "" && text[0] == '+' && Back(text) == "%20" + Back(text[1..])
    ensures Tallies(text, Back(text), Tallied(text))
    decreases |text|, 0
  {
    var rest := text[1..];
    TallyBack(rest);
    assert Tallied(text) == Tallied(rest).(plus := Tallied(rest).plus + 1);
    SpaceCounts(Back(rest), '%');
    SpaceCounts(Back(rest), '+');
    SpaceCounts(Back(rest), '&');
  }

  lemma {:induction false} TallyChar(text: string)
    requires Held(text) && text != "" && !EscapeAhead(text) && text[0] != '+'
    requires Back(text) == [text[0]] + Back(text[1..])
    ensures Tallies(text, Back(text), Tallied(text))
    decreases |text|, 0
  {
    var rest := text[1..];
    TallyBack(rest);
    forall d | d in "%+&" ensures Count(Back(text), d) == (if text[0] == d then 1 else 0) + Count(Back(rest), d) {
      CountConcat([text[0]], Back(rest), d);
      CountOne(text[0], d);
    }
  }

  lemma SpaceCounts(rest: string, d: char)
    requires d in "%+&"
    ensures Count("%20" + rest, d) == (if d == '%' then 1 else 0) + Count(rest, d)
  {
    CountConcat("%20", rest, d);
    CountThree('%', '2', '0', d);
    CountOne('%', d);
    CountOne('2', d);
    CountOne('0', d);
    assert "%20" == ['%', '2', '0'];
  }

  /** Where no escape is of a `%` or of what the setter drops, what comes back is the text only piece by piece. */
  lemma {:induction false} AlignedBack(text: string)
    requires Held(text) && Tallied(text).gone == 0 && Tallied(text).percent == 0
    ensures Back(text) == text <==> Kept(text)
    decreases |text|
  {
    if text != "" {
      BackStep(text);
      if EscapeAhead(text) {
        var spelt, rest := Spelt(ByteAhead(text)), text[3..];
        AlignedBack(rest);
        assert text == text[..3] + rest;
        SpeltCounts(ByteAhead(text), '%');
        if |spelt| == 3 {
          SamePieces(spelt, Back(rest), text[..3], rest);
        } else {
          assert (spelt + Back(rest))[0] == spelt[0] != '%' == text[0];
        }
      } else if text[0] == '+' {
        assert Back(text)[0] == '%';
      } else {
        AlignedBack(text[1..]);
        assert Spelt(text[0]) == [text[0]] && text == [text[0]] + text[1..];
        SamePieces([text[0]], Back(text[1..]), [text[0]], text[1..]);
      }
    }
  }

  lemma SamePieces(a: string, b: string, c: string, d: string)
    requires |a| == |c|
    ensures a + b == c + d <==> a == c && b == d
  {
    assert (a + b)[..|a|] == a && (c + d)[..|c|] == c && (a + b)[|a|..] == b && (c + d)[|c|..] == d;
  }

  lemma {:induction false} KeptAligned(text: string)
    requires Kept(text)
    ensures Tallied(text).gone == 0 && Tallied(text).percent == 0
    decreases |text|
  {
    if text != "" {
      KeptAligned(if EscapeAhead(text) then text[3..] else text[1..]);
    }
  }

  /** Where nothing that stood in a text with no `&` is gone of what comes back of it, nothing is there besides. */
  lemma NothingMore(text: string)
    requires Held(text) && '&' !in text && Within(text, Back(text))
    ensures Tallied(text).gone == 0 && Tallied(text).percent == 0 && |Back(text)| == |text|
  {
    TallyBack(text);
    NoCount(text, '&');
    assert Count(text, '%') <= Count(Back(text), '%') && Count(text, '+') <= Count(Back(text), '+');
  }

  /** A text carried in a query, that holds no `&`, comes back as it was exactly where it is kept. */
  lemma BackExactly(text: string)
    requires Held(text) && '&' !in text
    ensures Back(text) == text <==> Kept(text)
  {
    if Kept(text) {
      KeptAligned(text);
      AlignedBack(text);
    } else if Back(text) == text {
      WithinSame(text);
      NothingMore(text);
      AlignedBack(text);
      assert false;
    }
  }

  /** One that holds an `&` is cut at it, and something of it is gone, whatever else is in it. */
  lemma CutNeverBack(head: string, rest: string)
    requires Held(head) && '&' !in head
    ensures !Within(head + "&" + rest, Back(head))
  {
    var text, back := head + "&" + rest, Back(head);
    TallyBack(head);
    NoCount(head, '&');
    forall d: char ensures Count(text, d) == Count(head, d) + (if d == '&' then 1 else 0) + Count(rest, d) {
      CountConcat(head, "&", d);
      CountConcat(head + "&", rest, d);
      CountOne('&', d);
      assert ['&'] == "&";
    }
    assert Count(text, '%') > Count(back, '%') || Count(text, '+') > Count(back, '+')
      || Count(text, '&') > Count(back, '&');
  }

  // ---- a path set to what comes back ----

  lemma DecodedSpelling(start: string, text: string)
    requires Held(start)
    ensures Spelling(start + Decoded(text)) == start + Back(text)
  {
    SpellingConcat(start, Decoded(text));
    HeldSpelling(start);
  }

  lemma ResolvedLength(start: string, text: string)
    requires "/" <= start && Held(text) && '&' !in text
    requires Resolved(start + Back(text)) == start + text
    ensures |Back(text)| == |text|
  {
    ResolvedWithin(start + Back(text));
    WithinCancel(start, text, Back(text));
    NothingMore(text);
  }

  lemma SameBehind(start: string, a: string, b: string)
    ensures start + a == start + b <==> a == b
  {
    assert (start + a)[|start|..] == a && (start + b)[|start|..] == b;
  }

  /** Its segments resolved too, it comes back as it was exactly where besides no segment of the path is a dot's. */
  lemma SetBackExactly(start: string, text: string)
    requires "/" <= start && Held(start) && Held(text) && '&' !in text
    ensures PathSet(start + Decoded(text)) == start + text <==> Kept(text) && Dotless(Segments(start + text))
  {
    var back, whole := start + Back(text), start + text;
    DecodedSpelling(start, text);
    BackExactly(text);
    SameBehind(start, Back(text), text);
    if Resolved(back) == whole {
      ResolvedLength(start, text);
    }
    if |back| == |whole| {
      ResolvedSame(back, whole);
    }
  }

  lemma CutNeverSet(start: string, head: string, rest: string)
    requires "/" <= start && Held(start) && Held(head) && '&' !in head
    ensures PathSet(start + Decoded(head)) != start + (head + "&" + rest)
  {
    var back := start + Back(head);
    DecodedSpelling(start, head);
    if Resolved(back) == start + (head + "&" + rest) {
      ResolvedWithin(back);
      WithinCancel(start, head + "&" + rest, Back(head));
      CutNeverBack(head, rest);
      assert false;
    }
  }

  // ---- reading a query back ----

  predicate Plain(text: string) {
    '&' !in text && '+' !in text && '%' !in text && '$' !in text
  }

  lemma {:induction false} DecodedPlain(text: string)
    requires '%' !in text
    ensures |Decoded(text)| == |text|
    ensures Decoded(text) == text <==> '+' !in text
  {
    if text != "" {
      DecodedPlain(text[1..]);
      assert text == [text[0]] + text[1..];
      assert '+' in text <==> text[0] == '+' || '+' in text[1..];
      var first := if text[0] == '+' then " " else [text[0]];
      assert Decoded(text) == first + Decoded(text[1..]);
      assert Decoded(text)[0] == first[0] && Decoded(text)[1..] == Decoded(text[1..]);
    }
  }

  /** A parameter's name as this program's are written. */
  predicate ParameterName(name: string) {
    name != "" && '=' !in name && Plain(name)
  }

  lemma PairNamed(name: string, value: string)
    requires ParameterName(name)
    ensures PairOf(name + "=" + value) == (name, Decoded(value))
  {
    var piece := name + "=" + value;
    assert piece[..|name|] == name && piece[|name|] == '=' && piece[|name| + 1..] == value;
    Cutting.UniqueCut(piece, '=', |name|);
    DecodedPlain(name);
  }

  /** A piece is a name and a value at its first `=`, each decoded, and a name alone has an empty value. */
  lemma PairExactly(name: string, value: string)
    requires '=' !in name
    ensures PairOf(name + "=" + value) == (Decoded(name), Decoded(value)) && PairOf(name) == (Decoded(name), "")
  {
    var piece := name + "=" + value;
    assert piece[..|name|] == name && piece[|name|] == '=' && piece[|name| + 1..] == value;
    Cutting.UniqueCut(piece, '=', |name|);
    Cutting.NoCut(name, '=');
    assert name[..|name|] == name;
  }

  lemma PairsOnly(piece: string)
    requires piece != "" && '&' !in piece
    ensures Pairs(piece) == [PairOf(piece)]
  {
    Cutting.NoCut(piece, '&');
    assert [piece][1..] == [];
    assert Cutting.NotEmpty([piece]) == [piece] + Cutting.NotEmpty([piece][1..]) == [piece];
    assert PairsOf([piece]) == [PairOf(piece)] + PairsOf([piece][1..]);
  }

  lemma PairsFirst(piece: string, rest: string)
    requires piece != "" && '&' !in piece
    ensures Pairs(piece + "&" + rest) == [PairOf(piece)] + Pairs(rest)
  {
    Cutting.LinesAt(piece, '&', rest);
    assert piece + "&" + rest == piece + ['&'] + rest;
    assert [piece][1..] == [] && Cutting.NotEmpty([piece]) == [piece] + Cutting.NotEmpty([piece][1..]) == [piece];
    assert ([piece] + Cutting.LinesIn(rest, '&'))[1..] == Cutting.LinesIn(rest, '&');
  }

  lemma NoPairs()
    ensures Pairs("") == []
  {
    assert Cutting.Split("", '&') == [""];
    assert [""][1..] == [];
  }

  /** The pairs a destination's own query gives: its route, and whatever the rule adds. */
  lemma RoutePairs(name: string, route: string, query: string)
    requires ParameterName(name) && Plain(route)
    ensures Pairs(name + "=" + route) == [(name, route)]
    ensures Pairs(name + "=" + route + "&" + query) == [(name, route)] + Pairs(query)
  {
    PairNamed(name, route);
    DecodedPlain(route);
    PairsOnly(name + "=" + route);
    PairsFirst(name + "=" + route, query);
  }

  /** The path a rule carries, whole where it holds no `&`. */
  lemma CarriedPairs(name: string, carried: string)
    requires ParameterName(name) && '&' !in carried
    ensures Pairs(name + "=" + carried) == [(name, Decoded(carried))]
  {
    PairNamed(name, carried);
    PairsOnly(name + "=" + carried);
  }

  /** The path a rule carries, cut at its first `&`, the rest spilling out as pairs of the caller's kind. */
  lemma SpiltPairs(name: string, head: string, rest: string)
    requires ParameterName(name) && '&' !in head
    ensures Pairs(name + "=" + (head + "&" + rest)) == [(name, Decoded(head))] + Pairs(rest)
  {
    var piece := name + "=" + head;
    calc {
      Pairs(name + "=" + (head + "&" + rest));
      { SameText(name + "=", head, "&", rest); }
      Pairs(piece + "&" + rest);
      { PairsFirst(piece, rest); }
      [PairOf(piece)] + Pairs(rest);
      { PairNamed(name, head); }
      [(name, Decoded(head))] + Pairs(rest);
    }
  }

  /** An `&` is no part of an escape, so a text decodes apart at one. */
  lemma {:induction false} DecodedCut(head: string, rest: string)
    ensures Decoded(head + ("&" + rest)) == Decoded(head) + ("&" + Decoded(rest))
    decreases |head|
  {
    var tail := "&" + Decoded(rest);
    if head == "" {
      assert head + ("&" + rest) == "&" + rest && ("&" + rest)[1..] == rest;
    } else if EscapeAhead(head) {
      DecodedCut(head[3..], rest);
      EscapeBefore(head, "&" + rest);
      Regrouped([ByteAhead(head)], Decoded(head[3..]), tail);
    } else {
      NoEscapeAhead(head, rest);
      DecodedCut(head[1..], rest);
      assert (head + ("&" + rest))[1..] == head[1..] + ("&" + rest);
      Regrouped([if head[0] == '+' then ' ' else head[0]], Decoded(head[1..]), tail);
    }
  }

  lemma EscapeBefore(head: string, rest: string)
    requires EscapeAhead(head)
    ensures Decoded(head + rest) == [ByteAhead(head)] + Decoded(head[3..] + rest)
  {
    var text := head + rest;
    assert text[0] == head[0] && text[1] == head[1] && text[2] == head[2] && text[3..] == head[3..] + rest;
  }

  lemma NoEscapeAhead(head: string, rest: string)
    requires head != "" && !EscapeAhead(head)
    ensures !EscapeAhead(head + ("&" + rest))
  {
    var text := head + ("&" + rest);
    assert text[0] == head[0] && text[|head|] == '&' && HexValue('&').None?;
    assert |head| > 1 ==> text[1] == head[1];
    assert |head| > 2 ==> text[2] == head[2];
  }

  lemma SameText(a: string, b: string, c: string, d: string)
    ensures a + (b + c + d) == a + b + c + d
  {
  }
}
