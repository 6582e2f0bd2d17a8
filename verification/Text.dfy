/** Strings as the program cuts them: occurrence, and the leftmost replacement of every occurrence (`replaceAll`). */
module Text {
  predicate Digit(c: char) {
    '0' <= c <= '9'
  }

  function DigitValue(c: char): nat
    requires Digit(c)
  {
    c as int - '0' as int
  }

  predicate Occurs(w: string, text: string) {
    w <= text || (text != "" && Occurs(w, text[1..]))
  }

  /**
   * JavaScript's `replaceAll` of a text that is not empty by a literal one: leftmost first, what it put in not read
   * again.
   */
  function ReplaceAll(text: string, target: string, put: string): string
    requires target != ""
    decreases |text|
  {
    if text == "" then ""
    else if target <= text then put + ReplaceAll(text[|target|..], target, put)
    else [text[0]] + ReplaceAll(text[1..], target, put)
  }

  lemma {:induction false} OccursAt(w: string, text: string)
    ensures Occurs(w, text) <==> exists i :: 0 <= i <= |text| && w <= text[i..]
  {
    if w <= text {
      assert text[0..] == text;
    } else if text != "" {
      OccursAt(w, text[1..]);
      if i :| 0 <= i <= |text| && w <= text[i..] {
        assert i > 0 && text[i..] == text[1..][i - 1..];
      }
      if j :| 0 <= j <= |text[1..]| && w <= text[1..][j..] {
        assert text[j + 1..] == text[1..][j..];
      }
    }
  }

  lemma {:induction false} OccursWithin(w: string, a: string, b: string, c: string)
    requires Occurs(w, b)
    ensures Occurs(w, a + b + c)
  {
    OccursAt(w, b);
    var i :| 0 <= i <= |b| && w <= b[i..];
    var all := a + b + c;
    OccursAt(w, all);
    assert all[|a| + i..] == b[i..] + c;
  }

  lemma {:induction false} OccursTrans(v: string, w: string, text: string)
    requires Occurs(v, w) && Occurs(w, text)
    ensures Occurs(v, text)
  {
    OccursAt(w, text);
    var i :| 0 <= i <= |text| && w <= text[i..];
    assert text == text[..i] + w + text[i + |w|..];
    OccursWithin(v, text[..i], w, text[i + |w|..]);
  }

  /** Laid over one another at offset `k`, `w` and `put` agree wherever both stand. */
  predicate Agree(w: string, put: string, k: int) {
    forall i :: 0 <= i < |w| && 0 <= i - k < |put| ==> w[i] == put[i - k]
  }

  /** `w` can stand over some of `put`: inside it, around it, or across one of its ends. */
  predicate Touches(w: string, put: string) {
    exists k :: -|put| < k < |w| && Agree(w, put, k)
  }

  lemma {:induction false} OccursHead(w: string, put: string, p: nat, rest: string)
    requires p <= |put| && w != "" && !Touches(w, put)
    requires Occurs(w, put[p..] + rest)
    requires p == 0 ==> put != ""
    ensures Occurs(w, rest)
    decreases |put| - p
  {
    var text := put[p..] + rest;
    if p == |put| {
      assert text == rest;
    } else {
      if w <= text {
        var k: int := -(p as int);
        assert Agree(w, put, k) by {
          forall i | 0 <= i < |w| && 0 <= i - k < |put| ensures w[i] == put[i - k] {
            assert w[i] == text[i];
          }
        }
        assert false;
      }
      assert text[1..] == put[p + 1..] + rest;
      OccursHead(w, put, p + 1, rest);
    }
  }

  /** What starts a replaced text without touching what was put in started the text before. */
  lemma {:induction false} StartKept(w: string, j: nat, text: string, target: string, put: string)
    requires j < |w| && target != "" && put != "" && !Touches(w, put)
    requires w[j..] <= ReplaceAll(text, target, put)
    ensures w[j..] <= text
    decreases |text|
  {
    var replaced := ReplaceAll(text, target, put);
    assert w[j..][0] == w[j];
    if target <= text {
      assert Agree(w, put, j) by {
        forall i | 0 <= i < |w| && 0 <= i - j < |put| ensures w[i] == put[i - j] {
          assert w[i] == w[j..][i - j] == replaced[i - j];
        }
      }
      assert false;
    } else {
      assert w[j] == text[0];
      if j + 1 < |w| {
        assert w[j..][1..] == w[j + 1..];
        assert w[j + 1..] <= replaced[1..];
        StartKept(w, j + 1, text[1..], target, put);
      }
    }
  }

  /**
   * A replacement brings no occurrence of a text that cannot touch what it puts in, and leaves none of its target's.
   */
  lemma {:induction false} NothingBrought(w: string, text: string, target: string, put: string)
    requires w != "" && target != "" && put != "" && !Touches(w, put)
    ensures Occurs(w, ReplaceAll(text, target, put)) ==> Occurs(w, text) && w != target
    decreases |text|
  {
    var replaced := ReplaceAll(text, target, put);
    if Occurs(w, replaced) && text != "" {
      if target <= text {
        var rest := text[|target|..];
        assert replaced == put[0..] + ReplaceAll(rest, target, put);
        OccursHead(w, put, 0, ReplaceAll(rest, target, put));
        NothingBrought(w, rest, target, put);
        assert text == target + rest + "";
        OccursWithin(w, target, rest, "");
      } else if w <= replaced {
        assert w[0..] == w;
        StartKept(w, 0, text, target, put);
      } else {
        assert replaced[1..] == ReplaceAll(text[1..], target, put);
        NothingBrought(w, text[1..], target, put);
      }
    }
  }

  lemma {:induction false} ReplaceNothing(text: string, target: string, put: string)
    requires target != "" && !Occurs(target, text)
    ensures ReplaceAll(text, target, put) == text
    decreases |text|
  {
    if text != "" {
      ReplaceNothing(text[1..], target, put);
    }
  }

  lemma {:induction false} ReplacePuts(text: string, target: string, put: string)
    requires target != "" && Occurs(target, text)
    ensures Occurs(put, ReplaceAll(text, target, put))
    decreases |text|
  {
    if target <= text {
      var rest := ReplaceAll(text[|target|..], target, put);
      OccursWithin(put, "", put, rest);
      assert put + rest == "" + put + rest;
    } else {
      ReplacePuts(text[1..], target, put);
      assert ReplaceAll(text, target, put)[1..] == ReplaceAll(text[1..], target, put);
    }
  }

  /** Pieces with a text between each and the next. */
  function Glued(pieces: seq<string>, glue: string): string
    requires pieces != []
  {
    if |pieces| == 1 then pieces[0] else pieces[0] + glue + Glued(pieces[1..], glue)
  }

  /** A piece ahead of a text: the text starts at its end, and nowhere before. */
  predicate Leads(piece: string, target: string) {
    forall i :: 0 <= i < |piece| ==> !(target <= (piece + target)[i..])
  }

  predicate AllLead(pieces: seq<string>, target: string) {
    forall k :: 0 <= k < |pieces| - 1 ==> Leads(pieces[k], target)
  }

  /**
   * A replacement changes nothing but what it replaces: cut at each occurrence of the target, leftmost first, the text
   * is its pieces with the target between them, and what comes of it the same pieces with what is put in.
   */
  lemma {:induction false} ReplacedBetween(text: string, target: string, put: string) returns (pieces: seq<string>)
    requires target != ""
    ensures pieces != [] && AllLead(pieces, target) && !Occurs(target, pieces[|pieces| - 1])
    ensures Glued(pieces, target) == text && Glued(pieces, put) == ReplaceAll(text, target, put)
    decreases |text|
  {
    if text == "" {
      pieces := [""];
    } else if target <= text {
      var rest := ReplacedBetween(text[|target|..], target, put);
      pieces := PutFirst(text, rest, target, put);
    } else {
      var rest := ReplacedBetween(text[1..], target, put);
      pieces := Ahead(text[0], rest, target, text);
      GluedAhead(text[0], rest, target);
      GluedAhead(text[0], rest, put);
    }
  }

  lemma PutFirst(text: string, rest: seq<string>, target: string, put: string) returns (pieces: seq<string>)
    requires target != "" && target <= text && rest != []
    requires AllLead(rest, target) && !Occurs(target, rest[|rest| - 1])
    requires Glued(rest, target) == text[|target|..]
    requires Glued(rest, put) == ReplaceAll(text[|target|..], target, put)
    ensures pieces != [] && AllLead(pieces, target) && !Occurs(target, pieces[|pieces| - 1])
    ensures Glued(pieces, target) == text && Glued(pieces, put) == ReplaceAll(text, target, put)
  {
    pieces := [""] + rest;
    GluedFirst(rest, target);
    GluedFirst(rest, put);
    LeadsFirst(rest, target);
    assert text == target + text[|target|..];
  }

  lemma GluedFirst(rest: seq<string>, glue: string)
    requires rest != []
    ensures Glued([""] + rest, glue) == glue + Glued(rest, glue)
  {
    assert ([""] + rest)[1..] == rest;
    assert "" + glue + Glued(rest, glue) == glue + Glued(rest, glue);
  }

  lemma LeadsFirst(rest: seq<string>, target: string)
    requires rest != [] && AllLead(rest, target)
    ensures AllLead([""] + rest, target) && ([""] + rest)[|rest|] == rest[|rest| - 1]
  {
    var pieces := [""] + rest;
    forall k | 0 <= k < |pieces| - 1 ensures Leads(pieces[k], target) {
      assert k > 0 ==> pieces[k] == rest[k - 1];
    }
  }

  lemma GluedAhead(c: char, rest: seq<string>, glue: string)
    requires rest != []
    ensures Glued([[c] + rest[0]] + rest[1..], glue) == [c] + Glued(rest, glue)
  {
    assert ([[c] + rest[0]] + rest[1..])[1..] == rest[1..];
  }

  /** The pieces of a text with a character more in front, where the target does not start at it. */
  lemma Ahead(c: char, rest: seq<string>, target: string, text: string) returns (pieces: seq<string>)
    requires rest != [] && AllLead(rest, target) && !Occurs(target, rest[|rest| - 1])
    requires target != "" && !(target <= text) && text == [c] + Glued(rest, target)
    ensures pieces == [[c] + rest[0]] + rest[1..]
    ensures AllLead(pieces, target) && !Occurs(target, pieces[|pieces| - 1])
  {
    var first := [c] + rest[0];
    pieces := [first] + rest[1..];
    if |rest| == 1 {
      assert first[1..] == rest[0];
    } else {
      assert text == first + target + Glued(rest[1..], target);
      forall i | 0 <= i < |first| ensures !(target <= (first + target)[i..]) {
        if i == 0 {
          assert (first + target)[0..] <= text;
        } else {
          assert (first + target)[i..] == (rest[0] + target)[i - 1..];
          assert Leads(rest[0], target);
        }
      }
      assert forall k :: 0 < k < |rest| ==> pieces[k] == rest[k];
      assert forall k :: 0 < k < |rest| - 1 ==> Leads(rest[k], target);
    }
  }

  // ---- counting ----

  function Count(text: string, c: char): nat {
    if text == "" then 0 else (if text[0] == c then 1 else 0) + Count(text[1..], c)
  }

  lemma {:induction false} CountConcat(a: string, b: string, c: char)
    ensures Count(a + b, c) == Count(a, c) + Count(b, c)
  {
    if a == "" {
      assert a + b == b;
    } else {
      assert (a + b)[0] == a[0] && (a + b)[1..] == a[1..] + b;
      CountConcat(a[1..], b, c);
    }
  }

  lemma CountOne(c: char, d: char)
    ensures Count([c], d) == if c == d then 1 else 0
  {
  }

  lemma CountThree(a: char, b: char, c: char, d: char)
    ensures Count([a, b, c], d) == Count([a], d) + Count([b], d) + Count([c], d)
  {
    assert [a, b, c][1..] == [b, c] && [b, c][1..] == [c];
  }

  lemma {:induction false} NoCount(text: string, c: char)
    ensures c !in text <==> Count(text, c) == 0
  {
    if text != "" {
      NoCount(text[1..], c);
      assert c in text <==> text[0] == c || c in text[1..];
    }
  }
}
