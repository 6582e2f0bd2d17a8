/**
 * Codex's rollout kept at the service (`packages/agent-runner/src/codex-rollout.ts`): the whole lines of a growing file
 * mirrored to a store as entries, and the file written back from them.
 */
module Rollout {
  import opened Basics
  import opened Cutting

  /** How an entry is written on a line, and read off one where the line can be. */
  datatype Format<!E> = Format(parse: seq<Byte> -> Option<E>, write: E -> seq<Byte>)

  /** An entry is printed on one line, not an empty one, and read back as it was. */
  ghost predicate Sound<E(!new)>(f: Format<E>) {
    forall e :: NEWLINE !in f.write(e) && f.write(e) != [] && f.parse(f.write(e)) == Some(e)
  }

  /** Lines read as entries, where every one can be. */
  function Parsed<E>(f: Format<E>, lines: seq<seq<Byte>>): Option<seq<E>> {
    if lines == [] then Some([])
    else
      var first, rest := f.parse(lines[0]), Parsed(f, lines[1..]);
      if first.None? || rest.None? then None else Some([first.value] + rest.value)
  }

  /** A stretch of a file read in one go: the entries of its lines. */
  function Entries<E>(f: Format<E>, bytes: seq<Byte>): Option<seq<E>> {
    Parsed(f, LinesIn(bytes, NEWLINE))
  }

  function Read<E>(f: Format<E>, file: seq<Byte>, from: nat, to: nat): Option<seq<E>>
    requires from <= to <= |file|
  {
    Entries(f, file[from..to])
  }

  /** Where a file's whole lines past a place end, a line still being written left out. */
  function LinesEnd(file: seq<Byte>, from: nat): (end: nat)
    requires from <= |file|
    ensures from <= end <= |file|
  {
    from + WholeEnd(file[from..], NEWLINE)
  }

  /** A file's whole lines past a place, read in one go. */
  function OneShot<E>(f: Format<E>, file: seq<Byte>, from: nat): Option<seq<E>>
    requires from <= |file|
  {
    Read(f, file, from, LinesEnd(file, from))
  }

  /** The store's answer to an append: taken, refused, or taken with its answer lost on the way. */
  datatype Append = Stored | Rejected | Unheard

  /** The file, the store's entries of it, and how much of it the mirror holds the store to have. */
  datatype State<E> = State(file: seq<Byte>, store: seq<E>, sent: nat)

  datatype Act = Write(bytes: seq<Byte>) | Mirror(append: Append)

  /** One mirroring: the whole lines past what was sent, read and sent on; nothing where any cannot be read. */
  function Mirrored<E>(f: Format<E>, s: State<E>, append: Append): State<E> {
    if !HasToSend(f, s) || append.Rejected? then s
    else
      var entries := OneShot(f, s.file, s.sent).value;
      if append.Stored? then s.(store := s.store + entries, sent := LinesEnd(s.file, s.sent))
      else s.(store := s.store + entries)
  }

  /** There are whole lines past what was sent, and every one of them can be read. */
  predicate HasToSend<E>(f: Format<E>, s: State<E>) {
    s.sent <= |s.file| && OneShot(f, s.file, s.sent).Some? && |OneShot(f, s.file, s.sent).value| > 0
  }

  function Next<E>(f: Format<E>, s: State<E>, act: Act): State<E> {
    match act
    case Write(bytes) => s.(file := s.file + bytes)
    case Mirror(append) => Mirrored(f, s, append)
  }

  function After<E>(f: Format<E>, s: State<E>, acts: seq<Act>): State<E>
    decreases |acts|
  {
    if acts == [] then s else After(f, Next(f, s, acts[0]), acts[1..])
  }

  /** A mirror opened on the file as it stands. */
  function Opened<E>(file: seq<Byte>, store: seq<E>): State<E> {
    State(file, store, |file|)
  }

  // ---- Reading in pieces ----

  lemma {:induction false} ParsedConcat<E>(f: Format<E>, a: seq<seq<Byte>>, b: seq<seq<Byte>>)
    ensures Parsed(f, a).Some? && Parsed(f, b).Some? ==>
              Parsed(f, a + b) == Some(Parsed(f, a).value + Parsed(f, b).value)
    ensures Parsed(f, a + b).Some? ==> Parsed(f, a).Some? && Parsed(f, b).Some?
  {
    if a == [] {
      assert a + b == b;
      if Parsed(f, b).Some? {
        assert [] + Parsed(f, b).value == Parsed(f, b).value;
      }
    } else {
      ParsedConcat(f, a[1..], b);
      assert (a + b)[0] == a[0] && (a + b)[1..] == a[1..] + b;
      if Parsed(f, a).Some? && Parsed(f, b).Some? {
        var first, rest, last := [f.parse(a[0]).value], Parsed(f, a[1..]).value, Parsed(f, b).value;
        assert first + (rest + last) == (first + rest) + last;
      }
    }
  }

  /** Read up to a boundary and then past it, a file gives the entries it gives read in one go. */
  lemma EntriesConcat<E>(f: Format<E>, a: seq<Byte>, b: seq<Byte>)
    requires AtBoundary(a, NEWLINE, |a|)
    ensures Entries(f, a).Some? && Entries(f, b).Some? ==>
              Entries(f, a + b) == Some(Entries(f, a).value + Entries(f, b).value)
    ensures Entries(f, a + b).Some? ==> Entries(f, a).Some? && Entries(f, b).Some?
  {
    LinesConcat(a, b, NEWLINE);
    ParsedConcat(f, LinesIn(a, NEWLINE), LinesIn(b, NEWLINE));
  }

  /** A piece read on from a line boundary goes on from what was read up to it. */
  lemma ReadOn<E>(f: Format<E>, file: seq<Byte>, start: nat, sent: nat, end: nat)
    requires start <= sent <= end <= |file| && AtBoundary(file, NEWLINE, sent) && AtBoundary(file, NEWLINE, start)
    ensures Read(f, file, start, sent).Some? && Read(f, file, sent, end).Some? ==>
      Read(f, file, start, end) == Some(Read(f, file, start, sent).value + Read(f, file, sent, end).value)
    ensures Read(f, file, start, end).Some? ==> Read(f, file, start, sent).Some? && Read(f, file, sent, end).Some?
  {
    assert file[start..end] == file[start..sent] + file[sent..end];
    EntriesConcat(f, file[start..sent], file[sent..end]);
  }

  /** What was written stays as it is read. */
  lemma ReadWritten<E>(f: Format<E>, file: seq<Byte>, bytes: seq<Byte>, from: nat, to: nat)
    requires from <= to <= |file|
    ensures Read(f, file + bytes, from, to) == Read(f, file, from, to)
    ensures AtBoundary(file + bytes, NEWLINE, to) == AtBoundary(file, NEWLINE, to)
  {
    assert (file + bytes)[from..to] == file[from..to];
  }

  /** Whole lines past a line boundary end at one. */
  lemma LinesEndAt(file: seq<Byte>, from: nat)
    requires from <= |file| && AtBoundary(file, NEWLINE, from)
    ensures AtBoundary(file, NEWLINE, LinesEnd(file, from))
  {
    var tail, end := file[from..], WholeEnd(file[from..], NEWLINE);
    assert end > 0 ==> file[from + end - 1] == tail[end - 1];
  }

  /** What was sent ends at a line boundary, and can all be read. */
  ghost predicate Readable<E>(f: Format<E>, s: State<E>, start: nat) {
    && start <= s.sent <= |s.file|
    && AtBoundary(s.file, NEWLINE, start) && AtBoundary(s.file, NEWLINE, s.sent)
    && Read(f, s.file, start, s.sent).Some?
  }

  /**
   * The mirror's invariant, from a start where the store held `base` and the file's line boundary `start` was sent:
   * what was sent ends at a line boundary, and the store holds its start followed by the entries of exactly that much.
   */
  ghost predicate Kept<E>(f: Format<E>, s: State<E>, base: seq<E>, start: nat) {
    Readable(f, s, start) && s.store == base + Read(f, s.file, start, s.sent).value
  }

  lemma WriteReadable<E>(f: Format<E>, s: State<E>, bytes: seq<Byte>, start: nat)
    requires Readable(f, s, start)
    ensures var s' := s.(file := s.file + bytes);
      Readable(f, s', start) && Read(f, s'.file, start, s.sent) == Read(f, s.file, start, s.sent)
  {
    ReadWritten(f, s.file, bytes, start, s.sent);
    ReadWritten(f, s.file, bytes, start, start);
  }

  /** A mirroring stored moves what was sent on by what it stores. */
  lemma StoredReadable<E>(f: Format<E>, s: State<E>, start: nat)
    requires Readable(f, s, start) && HasToSend(f, s)
    ensures var end := LinesEnd(s.file, s.sent);
      && AtBoundary(s.file, NEWLINE, end)
      && Read(f, s.file, start, end)
         == Some(Read(f, s.file, start, s.sent).value + OneShot(f, s.file, s.sent).value)
  {
    LinesEndAt(s.file, s.sent);
    ReadOn(f, s.file, start, s.sent, LinesEnd(s.file, s.sent));
  }

  lemma MirrorKeeps<E>(f: Format<E>, s: State<E>, append: Append, base: seq<E>, start: nat)
    requires Kept(f, s, base, start) && (append == Unheard ==> !HasToSend(f, s))
    ensures Kept(f, Mirrored(f, s, append), base, start)
  {
    if HasToSend(f, s) && append == Stored {
      StoredReadable(f, s, start);
      Regrouped(base, Read(f, s.file, start, s.sent).value, OneShot(f, s.file, s.sent).value);
    }
  }

  /** No append of a run was taken with its answer lost: each that got no answer had nothing to send. */
  predicate AllHeard<E>(f: Format<E>, s: State<E>, acts: seq<Act>)
    decreases |acts|
  {
    acts != [] ==>
      && (acts[0] == Mirror(Unheard) ==> !HasToSend(f, s))
      && AllHeard(f, Next(f, s, acts[0]), acts[1..])
  }

  /**
   * Mirroring in any number of pieces refines reading in one go: from a line boundary the store already covers, over
   * any interleaving of writes and mirrorings, whether the store takes or refuses each, the store holds its start
   * followed by the entries of the lines sent, each once and in order, exactly where no append taken went unheard.
   */
  lemma {:induction false} MirrorRefines<E>(f: Format<E>, s: State<E>, acts: seq<Act>, base: seq<E>, start: nat)
    requires Kept(f, s, base, start)
    ensures Kept(f, After(f, s, acts), base, start) <==> AllHeard(f, s, acts)
    ensures !AllHeard(f, s, acts) ==> Repeats(f, After(f, s, acts), base, start)
    decreases |acts|
  {
    if acts != [] {
      match acts[0] {
        case Write(bytes) => WriteReadable(f, s, bytes, start);
        case Mirror(append) =>
          if append == Unheard && HasToSend(f, s) {
            RepeatsStay(f, Next(f, s, acts[0]), acts[1..], base, start);
            return;
          }
          MirrorKeeps(f, s, append, base, start);
      }
      MirrorRefines(f, Next(f, s, acts[0]), acts[1..], base, start);
    }
  }

  /** The store holds more than the lines sent give. */
  ghost predicate Repeats<E>(f: Format<E>, s: State<E>, base: seq<E>, start: nat) {
    && Readable(f, s, start)
    && |s.store| > |base| + |Read(f, s.file, start, s.sent).value|
  }

  /** Entries stored twice are never made up for. */
  lemma {:induction false} RepeatsStay<E>(f: Format<E>, s: State<E>, acts: seq<Act>, base: seq<E>, start: nat)
    requires Repeats(f, s, base, start)
    ensures Repeats(f, After(f, s, acts), base, start)
    decreases |acts|
  {
    if acts != [] {
      match acts[0] {
        case Write(bytes) => WriteReadable(f, s, bytes, start);
        case Mirror(append) => MirroredGrows(f, s, append, start);
      }
      RepeatsStay(f, Next(f, s, acts[0]), acts[1..], base, start);
    }
  }

  /** The store grows by as much as the lines sent do, but where an append went unheard. */
  lemma MirroredGrows<E>(f: Format<E>, s: State<E>, append: Append, start: nat)
    requires Readable(f, s, start)
    ensures var s' := Mirrored(f, s, append);
            && Readable(f, s', start)
            && var grown := |Read(f, s'.file, start, s'.sent).value| - |Read(f, s.file, start, s.sent).value|;
            && |s'.store| - |s.store| >= grown
            && (append != Unheard || !HasToSend(f, s) ==> |s'.store| - |s.store| == grown)
  {
    if append == Stored && HasToSend(f, s) {
      StoredReadable(f, s, start);
    }
  }

  /** A mirroring the store takes leaves it all the whole lines of the file, where they can all be read. */
  lemma MirrorCatchesUp<E>(f: Format<E>, s: State<E>, base: seq<E>, start: nat)
    requires Kept(f, s, base, start) && OneShot(f, s.file, start).Some?
    ensures Mirrored(f, s, Stored).store == base + OneShot(f, s.file, start).value
  {
    LinesEndSame(s.file, start, s.sent);
    ReadOn(f, s.file, start, s.sent, LinesEnd(s.file, s.sent));
    var sent, more := Read(f, s.file, start, s.sent).value, OneShot(f, s.file, s.sent).value;
    Regrouped(base, sent, more);
    if more == [] {
      assert sent + more == sent;
    }
  }

  lemma LinesEndSame(file: seq<Byte>, start: nat, sent: nat)
    requires start <= sent <= |file| && AtBoundary(file, NEWLINE, sent) && AtBoundary(file, NEWLINE, start)
    ensures LinesEnd(file, start) == LinesEnd(file, sent)
  {
    var head, tail := file[start..sent], file[sent..];
    assert file[start..] == head + tail;
    assert head != [] ==> head[|head| - 1] == file[sent - 1];
    WholeEndConcat(head, tail);
  }

  lemma {:induction false} WholeEndConcat(a: seq<Byte>, b: seq<Byte>)
    requires AtBoundary(a, NEWLINE, |a|)
    ensures WholeEnd(a + b, NEWLINE) == |a| + WholeEnd(b, NEWLINE)
    decreases |b|
  {
    if b == [] {
      assert a + b == a;
    } else if b[|b| - 1] != NEWLINE {
      WholeEndConcat(a, b[..|b| - 1]);
      assert (a + b)[..|a + b| - 1] == a + b[..|b| - 1];
    }
  }

  // ---- The mirror read as text ----

  /** A text's lines read as entries, as the program reads them: decoded first, and cut at line feeds. */
  function TextEntries<E>(parse: seq<CodePoint> -> Option<E>, text: seq<CodePoint>): Option<seq<E>> {
    TextParsed(parse, LinesIn(text, LINE_FEED))
  }

  function TextParsed<E>(parse: seq<CodePoint> -> Option<E>, lines: seq<seq<CodePoint>>): Option<seq<E>> {
    if lines == [] then Some([])
    else
      var first, rest := parse(lines[0]), TextParsed(parse, lines[1..]);
      if first.None? || rest.None? then None else Some([first.value] + rest.value)
  }

  ghost predicate ReadsBytesOf<E(!new)>(f: Format<E>, parse: seq<CodePoint> -> Option<E>) {
    forall line {:trigger parse(line)} :: f.parse(EncodedText(line)) == parse(line)
  }

  lemma {:induction false} ParsedText<E(!new)>(
    f: Format<E>, parse: seq<CodePoint> -> Option<E>, lines: seq<seq<CodePoint>>
  )
    requires ReadsBytesOf(f, parse)
    ensures Parsed(f, Map(EncodedText, lines)) == TextParsed(parse, lines)
  {
    if lines != [] {
      ParsedText(f, parse, lines[1..]);
      assert Map(EncodedText, lines)[0] == EncodedText(lines[0]);
      assert Map(EncodedText, lines)[1..] == Map(EncodedText, lines[1..]);
      assert f.parse(EncodedText(lines[0])) == parse(lines[0]);
    }
  }

  /**
   * Of a file that is a text's bytes so far, the last character cut where it may be, every stretch a mirroring reads is
   * some text's bytes, and its entries are that text's, decoded whole and then cut into lines.
   */
  lemma MirrorReadsText<E(!new)>(
    f: Format<E>, parse: seq<CodePoint> -> Option<E>, s: State<E>, text: seq<CodePoint>
  ) returns (mid: seq<CodePoint>)
    requires ReadsBytesOf(f, parse) && s.file <= EncodedText(text)
    requires s.sent <= |s.file| && AtBoundary(s.file, NEWLINE, s.sent)
    ensures s.file[s.sent..LinesEnd(s.file, s.sent)] == EncodedText(mid)
    ensures OneShot(f, s.file, s.sent) == TextEntries(parse, mid)
  {
    LinesEndAt(s.file, s.sent);
    mid := FileText(s.file, text, s.sent, LinesEnd(s.file, s.sent));
    TextRead(f, parse, mid);
  }

  lemma FileText(file: seq<Byte>, text: seq<CodePoint>, i: nat, j: nat) returns (mid: seq<CodePoint>)
    requires file <= EncodedText(text) && i <= j <= |file|
    requires AtBoundary(file, NEWLINE, i) && AtBoundary(file, NEWLINE, j)
    ensures file[i..j] == EncodedText(mid)
  {
    var bytes := EncodedText(text);
    mid := StretchText(text, i, j);
    assert bytes[i..j] == file[i..j];
  }

  lemma TextRead<E(!new)>(f: Format<E>, parse: seq<CodePoint> -> Option<E>, mid: seq<CodePoint>)
    requires ReadsBytesOf(f, parse)
    ensures Entries(f, EncodedText(mid)) == TextEntries(parse, mid)
  {
    LinesEncoded(mid);
    ParsedText(f, parse, LinesIn(mid, LINE_FEED));
  }

  // ---- One launch after another ----

  /** The store lacks entries of the lines a mirror takes it to hold. */
  ghost predicate Lacks<E>(f: Format<E>, s: State<E>, base: seq<E>, start: nat) {
    && Readable(f, s, start)
    && |s.store| < |base| + |Read(f, s.file, start, s.sent).value|
  }

  /** What the store lacks so it never gets. */
  lemma {:induction false} LacksStay<E>(f: Format<E>, s: State<E>, acts: seq<Act>, base: seq<E>, start: nat)
    requires Lacks(f, s, base, start) && AllHeard(f, s, acts)
    ensures Lacks(f, After(f, s, acts), base, start)
    decreases |acts|
  {
    if acts != [] {
      match acts[0] {
        case Write(bytes) => WriteReadable(f, s, bytes, start);
        case Mirror(append) => MirroredGrows(f, s, append, start);
      }
      LacksStay(f, Next(f, s, acts[0]), acts[1..], base, start);
    }
  }

  /**
   * A mirror opened on a file an earlier launch's mirror left covers it, then and after anything written and stored
   * since, exactly where nothing readable stood past what the earlier one had sent: what it had not, no later one
   * sends.
   */
  lemma ReopenedExactly<E>(f: Format<E>, s: State<E>, acts: seq<Act>, base: seq<E>, start: nat)
    requires Kept(f, s, base, start)
    requires AtBoundary(s.file, NEWLINE, |s.file|) && Read(f, s.file, s.sent, |s.file|).Some?
    requires AllHeard(f, Opened(s.file, s.store), acts)
    ensures Kept(f, After(f, Opened(s.file, s.store), acts), base, start)
      <==> Read(f, s.file, s.sent, |s.file|) == Some([])
  {
    var reopened, sent := Opened(s.file, s.store), Read(f, s.file, start, s.sent).value;
    ReadOn(f, s.file, start, s.sent, |s.file|);
    if Read(f, s.file, s.sent, |s.file|) == Some([]) {
      assert sent + [] == sent;
      MirrorRefines(f, reopened, acts, base, start);
    } else {
      LacksStay(f, reopened, acts, base, start);
    }
  }

  /** But an append taken whose answer was lost is sent again: the store then holds the same entries twice. */
  lemma LostAnswerRepeats<E>(f: Format<E>, s: State<E>)
    ensures var heard, unheard := Mirrored(f, s, Stored), Mirrored(f, Mirrored(f, s, Unheard), Stored);
            && heard.sent == unheard.sent && s.store <= heard.store
            && unheard.store == heard.store + heard.store[|s.store|..]
  {
    var unheard := Mirrored(f, s, Unheard);
    assert unheard.file == s.file && unheard.sent == s.sent;
  }

  // ---- A line that cannot be read ----

  /** Whatever is written and mirrored from here on, nothing more is sent. */
  ghost predicate Stopped<E>(f: Format<E>, s: State<E>) {
    forall acts :: After(f, s, acts).store == s.store && After(f, s, acts).sent == s.sent
  }

  /** What is written after whole lines stands after them. */
  lemma WholeWritten(tail: seq<Byte>, bytes: seq<Byte>)
    ensures var end, later := WholeEnd(tail, NEWLINE), WholeEnd(tail + bytes, NEWLINE);
      && end <= later && (tail + bytes)[..later] == tail[..end] + (tail + bytes)[end..later]
      && AtBoundary(tail[..end], NEWLINE, end)
  {
    var end := WholeEnd(tail, NEWLINE);
    BehindWhole(tail[..end], tail[end..] + bytes);
    assert tail + bytes == tail[..end] + (tail[end..] + bytes);
  }

  lemma BehindWhole(whole: seq<Byte>, after: seq<Byte>)
    requires AtBoundary(whole, NEWLINE, |whole|)
    ensures var later := WholeEnd(whole + after, NEWLINE);
      |whole| <= later && (whole + after)[..later] == whole + (whole + after)[|whole|..later]
  {
    WholeEndConcat(whole, after);
  }

  lemma OneShotTail<E>(f: Format<E>, file: seq<Byte>, from: nat)
    requires from <= |file|
    ensures OneShot(f, file, from) == Entries(f, file[from..][..WholeEnd(file[from..], NEWLINE)])
  {
    var end := WholeEnd(file[from..], NEWLINE);
    assert file[from..from + end] == file[from..][..end];
  }

  lemma UnreadWritten<E>(f: Format<E>, file: seq<Byte>, from: nat, bytes: seq<Byte>)
    requires from <= |file| && OneShot(f, file, from).None?
    ensures OneShot(f, file + bytes, from).None?
  {
    var tail := file[from..];
    var end, later := WholeEnd(tail, NEWLINE), WholeEnd(tail + bytes, NEWLINE);
    assert (file + bytes)[from..] == tail + bytes;
    OneShotTail(f, file, from);
    OneShotTail(f, file + bytes, from);
    WholeWritten(tail, bytes);
    EntriesConcat(f, tail[..end], (tail + bytes)[end..later]);
  }

  /** One whole line past what was sent that cannot be read, and nothing more is ever sent. */
  lemma {:induction false} UnreadStops<E>(f: Format<E>, s: State<E>, acts: seq<Act>)
    requires s.sent <= |s.file| && OneShot(f, s.file, s.sent).None?
    ensures After(f, s, acts).store == s.store && After(f, s, acts).sent == s.sent
    decreases |acts|
  {
    if acts != [] {
      if acts[0].Write? {
        UnreadWritten(f, s.file, s.sent, acts[0].bytes);
      }
      UnreadStops(f, Next(f, s, acts[0]), acts[1..]);
    }
  }

  lemma {:induction false} ParsedCount<E>(f: Format<E>, lines: seq<seq<Byte>>)
    requires Parsed(f, lines).Some?
    ensures |Parsed(f, lines).value| == |lines|
  {
    if lines != [] {
      ParsedCount(f, lines[1..]);
    }
  }

  /**
   * With whole lines past what was sent, the mirror has stopped for good exactly where one of them cannot be read: the
   * next mirroring tries again, and fails again.
   */
  lemma StoppedExactly<E>(f: Format<E>, s: State<E>)
    requires s.sent <= |s.file| && LinesIn(s.file[s.sent..LinesEnd(s.file, s.sent)], NEWLINE) != []
    ensures Stopped(f, s) <==> OneShot(f, s.file, s.sent).None?
  {
    if OneShot(f, s.file, s.sent).None? {
      forall acts ensures After(f, s, acts).store == s.store && After(f, s, acts).sent == s.sent {
        UnreadStops(f, s, acts);
      }
    } else {
      var acts := [Mirror(Stored)];
      ParsedCount(f, LinesIn(s.file[s.sent..LinesEnd(s.file, s.sent)], NEWLINE));
      assert acts[1..] == [] && After(f, s, acts) == After(f, Next(f, s, acts[0]), []) == Mirrored(f, s, Stored);
      assert |After(f, s, acts).store| > |s.store|;
    }
  }

  /**
   * A mirror opened on a line still being written reads the rest of that line for a line: once the line is whole, it
   * has stopped for good exactly where the rest cannot be read, and otherwise stores what the rest reads as.
   */
  lemma ReopenedMidLine<E>(f: Format<E>, file: seq<Byte>, store: seq<E>, rest: seq<Byte>)
    requires NEWLINE !in rest && rest != []
    ensures var s := Next(f, Opened(file, store), Write(rest + [NEWLINE]));
      && (Stopped(f, s) <==> f.parse(rest).None?)
      && (f.parse(rest).Some? ==> Mirrored(f, s, Stored).store == store + [f.parse(rest).value])
  {
    var line := rest + [NEWLINE];
    var s := Next(f, Opened(file, store), Write(line));
    assert s.file[s.sent..] == line && line[..|line|] == line;
    assert s.file[s.sent..LinesEnd(s.file, s.sent)] == line;
    OneLine(rest, NEWLINE);
    OneParsed(f, rest);
    StoppedExactly(f, s);
  }

  lemma OneParsed<E>(f: Format<E>, line: seq<Byte>)
    ensures Parsed(f, [line]) == if f.parse(line).None? then None else Some([f.parse(line).value])
  {
    var lines := [line];
    assert lines[1..] == [] && Parsed(f, lines[1..]) == Some([]);
    assert f.parse(line).Some? ==> [f.parse(line).value] + [] == [f.parse(line).value];
  }

  // ---- Written back ----

  /** The file as it is written back: each entry on a line. */
  function Restored<E>(f: Format<E>, entries: seq<E>): seq<Byte> {
    if entries == [] then [] else f.write(entries[0]) + [NEWLINE] + Restored(f, entries[1..])
  }

  /** Writing back undoes mirroring: the file written reads as the entries, all of it whole lines. */
  lemma {:induction false} RestoreReadsBack<E(!new)>(f: Format<E>, entries: seq<E>)
    requires Sound(f)
    ensures var file := Restored(f, entries);
            && Entries(f, file) == Some(entries) && OneShot(f, file, 0) == Some(entries)
            && AtBoundary(file, NEWLINE, |file|)
  {
    var file := Restored(f, entries);
    if entries == [] {
      EmptyFile(f);
    } else {
      RestoreReadsBack(f, entries[1..]);
      LineThenRest(f, entries[0], Restored(f, entries[1..]), entries[1..]);
      assert entries == [entries[0]] + entries[1..];
    }
    assert WholeEnd(file, NEWLINE) == |file| && file[..|file|] == file;
  }

  lemma EmptyFile<E>(f: Format<E>)
    ensures Entries(f, []) == Some([])
  {
    NoCut([], NEWLINE);
    var pieces: seq<seq<Byte>> := [[]];
    assert Split([], NEWLINE) == pieces && pieces[1..] == [];
    assert NotEmpty(pieces) == NotEmpty(pieces[1..]) == [];
  }

  lemma LineThenRest<E(!new)>(f: Format<E>, e: E, rest: seq<Byte>, after: seq<E>)
    requires Sound(f) && Entries(f, rest) == Some(after) && AtBoundary(rest, NEWLINE, |rest|)
    ensures var file := f.write(e) + [NEWLINE] + rest;
            Entries(f, file) == Some([e] + after) && AtBoundary(file, NEWLINE, |file|)
  {
    var line := f.write(e) + [NEWLINE];
    OneLine(f.write(e), NEWLINE);
    LineParsed(f, e);
    EntriesConcat(f, line, rest);
    assert rest != [] ==> (line + rest)[|line + rest| - 1] == rest[|rest| - 1];
  }

  lemma LineParsed<E(!new)>(f: Format<E>, e: E)
    requires Sound(f)
    ensures Parsed(f, [f.write(e)]) == Some([e])
  {
    assert f.parse(f.write(e)) == Some(e);
    OneParsed(f, f.write(e));
  }

  /**
   * A mirror opened on a file written back keeps file and store equal as entries: whatever is written and mirrored
   * after, the store holds what the file reads as, up to what was sent, exactly where no append taken went unheard.
   */
  lemma RestoreThenMirror<E(!new)>(f: Format<E>, entries: seq<E>, acts: seq<Act>)
    requires Sound(f)
    ensures var first := Opened(Restored(f, entries), entries);
            var s := After(f, first, acts);
            s.sent <= |s.file| && (Entries(f, s.file[..s.sent]) == Some(s.store) <==> AllHeard(f, first, acts))
  {
    var s := Opened(Restored(f, entries), entries);
    RestoredKept(f, entries);
    MirrorRefines(f, s, acts, [], 0);
    AfterReadable(f, s, acts, 0);
    KeptWhole(f, After(f, s, acts));
  }

  lemma RestoredKept<E(!new)>(f: Format<E>, entries: seq<E>)
    requires Sound(f)
    ensures Kept(f, Opened(Restored(f, entries), entries), [], 0)
  {
    var file := Restored(f, entries);
    RestoreReadsBack(f, entries);
    assert file[0..|file|] == file && [] + entries == entries;
  }

  lemma KeptWhole<E>(f: Format<E>, s: State<E>)
    requires Readable(f, s, 0)
    ensures Kept(f, s, [], 0) <==> Entries(f, s.file[..s.sent]) == Some(s.store)
  {
    assert s.file[0..s.sent] == s.file[..s.sent];
    assert [] + Read(f, s.file, 0, s.sent).value == Read(f, s.file, 0, s.sent).value;
  }

  lemma {:induction false} AfterReadable<E>(f: Format<E>, s: State<E>, acts: seq<Act>, start: nat)
    requires Readable(f, s, start)
    ensures Readable(f, After(f, s, acts), start)
    decreases |acts|
  {
    if acts != [] {
      match acts[0] {
        case Write(bytes) => WriteReadable(f, s, bytes, start);
        case Mirror(append) => MirroredGrows(f, s, append, start);
      }
      AfterReadable(f, Next(f, s, acts[0]), acts[1..], start);
    }
  }

  // ---- The mirror and the restore as they run ----

  class RolloutMirror<!E> {
    const format: Format<E>
    /** The file app-server writes, and the store's entries of it. */
    var file: seq<Byte>
    var store: seq<E>
    var sent: nat

    function View(): State<E>
      reads this
    {
      State(file, store, sent)
    }

    constructor (format: Format<E>, file: seq<Byte>, store: seq<E>)
      ensures this.format == format && View() == Opened(file, store)
    {
      this.format, this.file, this.store, sent := format, file, store, |file|;
    }

    /** The file's whole lines past what was sent, as entries, and how many bytes they take up. */
    method ReadPast() returns (entries: Option<seq<E>>, bytes: nat)
      ensures HasToSend(format, View()) <==> entries.Some? && |entries.value| > 0
      ensures HasToSend(format, View()) ==>
        entries == OneShot(format, file, sent) && sent + bytes == LinesEnd(file, sent)
    {
      if sent > |file| {
        return Some([]), 0;
      }
      var unsent := file[sent..];
      bytes := WholeEnd(unsent, NEWLINE);
      assert unsent[..bytes] == file[sent..sent + bytes];
      entries := Entries(format, unsent[..bytes]);
    }

    method Mirror(append: Append)
      modifies `store, `sent
      ensures View() == Mirrored(format, old(View()), append)
    {
      var entries, bytes := ReadPast();
      if entries.None? || |entries.value| == 0 {
        return;
      }
      match append
      case Rejected =>
      case Unheard => store := store + entries.value;
      case Stored =>
        store := store + entries.value;
        sent := sent + bytes;
    }
  }

  /** Every file of a thread the store holds, written back where it is missing; a file there is left as it is. */
  method RestoreRollouts<E>(f: Format<E>, subpaths: seq<string>, stored: map<string, seq<E>>,
                            files: map<string, seq<Byte>>)
    returns (written: map<string, seq<Byte>>)
    ensures forall path :: path in files ==> path in written && written[path] == files[path]
    ensures forall path :: path in written <==> path in files || (path in subpaths && path in stored)
    ensures forall path :: path in written && path !in files ==> written[path] == Restored(f, stored[path])
  {
    written := files;
    for i := 0 to |subpaths|
      invariant forall path :: path in files ==> path in written && written[path] == files[path]
      invariant forall path :: path in written <==> path in files || (path in subpaths[..i] && path in stored)
      invariant forall path :: path in written && path !in files ==> written[path] == Restored(f, stored[path])
    {
      var subpath := subpaths[i];
      assert subpaths[..i + 1] == subpaths[..i] + [subpath];
      if subpath !in written && subpath in stored {
        var text := WrittenOut(f, stored[subpath]);
        written := written[subpath := text];
      }
    }
    assert subpaths[..|subpaths|] == subpaths;
  }

  method WrittenOut<E>(f: Format<E>, entries: seq<E>) returns (text: seq<Byte>)
    ensures text == Restored(f, entries)
  {
    text := [];
    for i := 0 to |entries|
      invariant text + Restored(f, entries[i..]) == Restored(f, entries)
    {
      assert entries[i..][0] == entries[i] && entries[i..][1..] == entries[i + 1..];
      text := text + (f.write(entries[i]) + [NEWLINE]);
    }
  }
}
