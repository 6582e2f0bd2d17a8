/**
 * The service's lines read past the launch's cursor (`packages/agent-runner/src/lines.ts`): a long poll asked again and
 * again, each answer's lines handed on where they are past the last one handed.
 */
module Lines {
  import opened Basics

  datatype Line = Line(place: nat, text: string)

  /** What a read is answered: lines, or nothing, and whether the same read may be answered later. */
  datatype Answer = Answered(lines: seq<Line>) | Unread(transient: bool)

  /** The place read up to, the lines handed on, and whether the reads have stopped. */
  datatype Cursor = Cursor(after: nat, handed: seq<Line>, stopped: bool)

  const START := Cursor(0, [], false)

  /** One line of an answer. The queue it is handed to takes `room` lines before it is ended. */
  function TakeLine(c: Cursor, line: Line, room: nat): Cursor {
    if c.stopped || line.place <= c.after then c
    else if |c.handed| >= room then c.(stopped := true)
    else Cursor(line.place, c.handed + [line], false)
  }

  function TakeLines(c: Cursor, lines: seq<Line>, room: nat): Cursor
    decreases |lines|
  {
    if lines == [] then c else TakeLines(TakeLine(c, lines[0], room), lines[1..], room)
  }

  function Take(c: Cursor, answer: Answer, room: nat): Cursor {
    if c.stopped then c
    else if answer.Answered? then TakeLines(c, answer.lines, room)
    else if answer.transient then c
    else c.(stopped := true)
  }

  /** The reads answered so, from a cursor. */
  function Reading(c: Cursor, answers: seq<Answer>, room: nat): Cursor
    decreases |answers|
  {
    if answers == [] then c else Reading(Take(c, answers[0], room), answers[1..], room)
  }

  /** An answer's lines handed on, each past the last one handed, until the queue takes no more. */
  method HandOn(c: Cursor, lines: seq<Line>, room: nat) returns (t: Cursor)
    requires Ascending(c) && |c.handed| <= room
    ensures t == TakeLines(c, lines, room) && Ascending(t) && |t.handed| <= room
  {
    t := c;
    var k := 0;
    while k < |lines| && !t.stopped
      invariant k <= |lines| && TakeLines(t, lines[k..], room) == TakeLines(c, lines, room)
      invariant Ascending(t) && |t.handed| <= room
    {
      var line := lines[k];
      assert lines[k..][0] == line && lines[k..][1..] == lines[k + 1..];
      k := k + 1;
      if line.place > t.after {
        t := if |t.handed| >= room then t.(stopped := true) else Cursor(line.place, t.handed + [line], false);
      }
    }
    if t.stopped {
      StoppedLines(t, lines[k..], room);
    }
  }

  /** The reader's loop, over the answers its reads are given. */
  method ReadLines(answers: seq<Answer>, room: nat) returns (c: Cursor)
    ensures c == Reading(START, answers, room)
    ensures forall i, j :: 0 <= i < j < |c.handed| ==> c.handed[i].place < c.handed[j].place
    ensures |c.handed| <= room && forall i :: 0 <= i < |c.handed| ==> 0 < c.handed[i].place <= c.after
  {
    c := START;
    var i := 0;
    while i < |answers| && !c.stopped
      invariant i <= |answers| && Reading(c, answers[i..], room) == Reading(START, answers, room)
      invariant Ascending(c) && |c.handed| <= room
    {
      var answer := answers[i];
      assert answers[i..][0] == answer && answers[i..][1..] == answers[i + 1..];
      i := i + 1;
      match answer
      case Answered(lines) => c := HandOn(c, lines, room);
      case Unread(transient) => c := c.(stopped := !transient);
    }
    if c.stopped {
      StoppedReads(c, answers[i..], room);
    }
  }

  lemma {:induction false} StoppedLines(c: Cursor, lines: seq<Line>, room: nat)
    requires c.stopped
    ensures TakeLines(c, lines, room) == c
    decreases |lines|
  {
    if lines != [] {
      StoppedLines(c, lines[1..], room);
    }
  }

  lemma {:induction false} StoppedReads(c: Cursor, answers: seq<Answer>, room: nat)
    requires c.stopped
    ensures Reading(c, answers, room) == c
    decreases |answers|
  {
    if answers != [] {
      StoppedReads(c, answers[1..], room);
    }
  }

  /** The lines handed on stand at places strictly increasing from 1, the last at the cursor's. */
  predicate Ascending(c: Cursor) {
    && (forall i, j :: 0 <= i < j < |c.handed| ==> c.handed[i].place < c.handed[j].place)
    && (forall i :: 0 <= i < |c.handed| ==> 0 < c.handed[i].place)
    && (if c.handed == [] then c.after == 0 else c.handed[|c.handed| - 1].place == c.after)
  }

  // ---- What is handed on, and when the reads stop ----

  /** Whether a line stands past every line answered before it. */
  predicate New(lines: seq<Line>, k: nat)
    requires k < |lines|
  {
    lines[k].place > 0 && forall j :: 0 <= j < k ==> lines[j].place < lines[k].place
  }

  /** The new ones of the lines answered, in order. */
  function News(lines: seq<Line>): seq<Line>
    decreases |lines|
  {
    if lines == [] then []
    else
      var last: nat := |lines| - 1;
      News(lines[..last]) + if New(lines, last) then [lines[last]] else []
  }

  /** A read refused for good. */
  predicate Refusal(answer: Answer) {
    answer == Unread(false)
  }

  /** The lines answered, up to the first read refused for good. */
  function Heard(answers: seq<Answer>): seq<Line>
    decreases |answers|
  {
    if answers == [] || Refusal(answers[0]) then []
    else (if answers[0].Answered? then answers[0].lines else []) + Heard(answers[1..])
  }

  function Least(a: nat, b: nat): nat {
    if a < b then a else b
  }

  /** A cursor where the reads that have been answered these lines leave it. */
  ghost predicate At(c: Cursor, lines: seq<Line>, room: nat) {
    && c.handed == News(lines)[..Least(room, |News(lines)|)]
    && (c.stopped <==> |News(lines)| > room)
    && (!c.stopped ==>
          && (forall k :: 0 <= k < |lines| ==> lines[k].place <= c.after)
          && (c.after > 0 ==> exists k :: 0 <= k < |lines| && lines[k].place == c.after))
  }

  lemma NewNext(lines: seq<Line>, line: Line)
    ensures News(lines + [line]) == News(lines) + if New(lines + [line], |lines|) then [line] else []
  {
    assert (lines + [line])[..|lines|] == lines;
  }

  lemma TakeAt(c: Cursor, lines: seq<Line>, line: Line, room: nat)
    requires At(c, lines, room)
    ensures At(TakeLine(c, line, room), lines + [line], room)
  {
    var more := lines + [line];
    NewNext(lines, line);
    if !c.stopped {
      NewPast(c, lines, line);
      assert forall k :: 0 <= k < |more| ==> more[k] == if k < |lines| then lines[k] else line;
      if line.place > c.after && |c.handed| < room {
        assert more[|lines|].place == line.place;
      } else if line.place <= c.after && c.after > 0 {
        var k :| 0 <= k < |lines| && lines[k].place == c.after;
        assert more[k].place == c.after;
      }
    }
  }

  lemma NewPast(c: Cursor, lines: seq<Line>, line: Line)
    requires forall k :: 0 <= k < |lines| ==> lines[k].place <= c.after
    requires c.after > 0 ==> exists k :: 0 <= k < |lines| && lines[k].place == c.after
    ensures New(lines + [line], |lines|) <==> line.place > c.after
  {
    var more := lines + [line];
    assert forall k :: 0 <= k < |lines| ==> more[k] == lines[k];
    if c.after > 0 {
      var k :| 0 <= k < |lines| && lines[k].place == c.after;
      assert more[k].place == c.after;
    }
  }

  lemma {:induction false} TakesAt(c: Cursor, lines: seq<Line>, more: seq<Line>, room: nat)
    requires At(c, lines, room)
    ensures At(TakeLines(c, more, room), lines + more, room)
    decreases |more|
  {
    if more == [] {
      assert lines + more == lines;
    } else {
      TakeAt(c, lines, more[0], room);
      TakesAt(TakeLine(c, more[0], room), lines + [more[0]], more[1..], room);
      assert lines + [more[0]] + more[1..] == lines + more;
    }
  }

  lemma StoppedAt(c: Cursor, lines: seq<Line>, answers: seq<Answer>, room: nat)
    requires At(c, lines, room) && c.stopped
    ensures var r, all := Reading(c, answers, room), News(lines + Heard(answers));
      r.handed == all[..Least(room, |all|)] && r.stopped && |all| > room
  {
    StoppedReads(c, answers, room);
    NewsGrow(lines, Heard(answers));
  }

  lemma {:induction false} ReadingAt(c: Cursor, lines: seq<Line>, answers: seq<Answer>, room: nat)
    requires At(c, lines, room)
    ensures var r, all := Reading(c, answers, room), News(lines + Heard(answers));
      && r.handed == all[..Least(room, |all|)]
      && (r.stopped <==> |all| > room || SomeRefused(answers))
    decreases |answers|
  {
    if answers == [] {
      assert lines + [] == lines;
    } else if c.stopped {
      StoppedAt(c, lines, answers, room);
    } else if Refusal(answers[0]) {
      StoppedReads(Take(c, answers[0], room), answers[1..], room);
      assert lines + [] == lines;
    } else {
      var first := if answers[0].Answered? then answers[0].lines else [];
      FirstAt(c, lines, answers[0], room);
      ReadingAt(Take(c, answers[0], room), lines + first, answers[1..], room);
      Regrouped(lines, first, Heard(answers[1..]));
      RefusedLater(answers);
    }
  }

  lemma FirstAt(c: Cursor, lines: seq<Line>, answer: Answer, room: nat)
    requires At(c, lines, room) && !c.stopped && !Refusal(answer)
    ensures At(Take(c, answer, room), lines + if answer.Answered? then answer.lines else [], room)
  {
    if answer.Answered? {
      TakesAt(c, lines, answer.lines, room);
    } else {
      assert lines + [] == lines;
    }
  }

  predicate SomeRefused(answers: seq<Answer>) {
    exists i :: 0 <= i < |answers| && Refusal(answers[i])
  }

  lemma RefusedLater(answers: seq<Answer>)
    requires answers != [] && !Refusal(answers[0])
    ensures SomeRefused(answers) <==> SomeRefused(answers[1..])
  {
    assert forall i :: 0 < i < |answers| ==> answers[i] == answers[1..][i - 1];
    if i :| 0 <= i < |answers[1..]| && Refusal(answers[1..][i]) {
      assert answers[i + 1] == answers[1..][i];
    }
  }

  lemma {:induction false} NewsGrow(lines: seq<Line>, more: seq<Line>)
    ensures News(lines) <= News(lines + more)
    decreases |more|
  {
    if more == [] {
      assert lines + more == lines;
    } else {
      var last := |more| - 1;
      NewsGrow(lines, more[..last]);
      NewNext(lines + more[..last], more[last]);
      assert lines + more[..last] + [more[last]] == lines + more;
    }
  }

  /**
   * Over any answers at all: the lines handed on are the first the queue has room for of the new lines answered, and
   * the reads stop exactly where one is refused for good or there are more of them than room.
   */
  lemma HandedExactly(answers: seq<Answer>, room: nat)
    ensures var r, all := Reading(START, answers, room), News(Heard(answers));
      && r.handed == all[..Least(room, |all|)]
      && (r.stopped <==> |all| > room || SomeRefused(answers))
  {
    ReadingAt(START, [], answers, room);
    assert [] + Heard(answers) == Heard(answers);
  }

  // ---- A service that answers in order ----

  /** The service's log as the lines it answers: the first at place 1. */
  function Logged(log: seq<string>, lo: nat, hi: nat): seq<Line>
    requires lo <= hi <= |log|
  {
    seq(hi - lo, i requires 0 <= i < hi - lo => Line(lo + i + 1, log[lo + i]))
  }

  /** An answer of consecutive lines that starts no further than just past the place asked. */
  ghost predicate Consecutive(log: seq<string>, after: nat, answer: Answer) {
    answer.Answered? ==> exists lo, hi :: 0 <= lo <= hi <= |log| && lo <= after && answer.lines == Logged(log, lo, hi)
  }

  /** Each read answered so, past the place it asks from. */
  ghost predicate InOrder(log: seq<string>, c: Cursor, answers: seq<Answer>, room: nat)
    decreases |answers|
  {
    answers != [] ==>
      Consecutive(log, c.after, answers[0]) && InOrder(log, Take(c, answers[0], room), answers[1..], room)
  }

  /** The lines handed on are the log's first, each once. */
  predicate Prefix(log: seq<string>, c: Cursor) {
    c.after <= |log| && c.handed == Logged(log, 0, c.after)
  }

  lemma {:induction false} TakesStretch(log: seq<string>, c: Cursor, lo: nat, hi: nat, room: nat)
    requires Prefix(log, c) && lo <= hi <= |log| && lo <= c.after
    ensures var t := TakeLines(c, Logged(log, lo, hi), room);
            Prefix(log, t) && (!t.stopped ==> t.after == if c.after < hi then hi else c.after)
    ensures |log| <= room && !c.stopped ==> !TakeLines(c, Logged(log, lo, hi), room).stopped
    decreases hi - lo
  {
    var lines := Logged(log, lo, hi);
    if c.stopped {
      StoppedLines(c, lines, room);
    } else if lo < hi {
      var t := TakeLine(c, lines[0], room);
      assert lines[1..] == Logged(log, lo + 1, hi);
      if lo == c.after && |c.handed| < room {
        assert t.handed == Logged(log, 0, lo + 1);
      }
      if t.stopped {
        StoppedLines(t, lines[1..], room);
      } else {
        TakesStretch(log, t, lo + 1, hi, room);
      }
    }
  }

  lemma StretchIn(log: seq<string>, r: Cursor, lo: nat, hi: nat)
    requires Prefix(log, r) && lo <= hi <= r.after
    ensures forall line :: line in Logged(log, lo, hi) ==> line in r.handed
  {
    forall line | line in Logged(log, lo, hi) ensures line in r.handed {
      var i :| 0 <= i < hi - lo && line == Logged(log, lo, hi)[i];
      assert r.handed[lo + i] == line;
    }
  }

  /**
   * Each line of the service's log is handed on once, in order from place 1, over any failures between and any line
   * answered again; and while the reads go on, every line answered so far was handed on.
   */
  lemma {:induction false} LogHandedOn(log: seq<string>, c: Cursor, answers: seq<Answer>, room: nat)
    requires Prefix(log, c) && InOrder(log, c, answers, room)
    ensures Prefix(log, Reading(c, answers, room))
    ensures var r := Reading(c, answers, room);
            !r.stopped ==> forall a, line :: a in answers && a.Answered? && line in a.lines ==> line in r.handed
    decreases |answers|
  {
    if answers != [] {
      var t := Take(c, answers[0], room);
      var r := Reading(c, answers, room);
      if answers[0].Answered? && !c.stopped {
        var lo, hi :| 0 <= lo <= hi <= |log| && lo <= c.after && answers[0].lines == Logged(log, lo, hi);
        TakesStretch(log, c, lo, hi, room);
        LogHandedOn(log, t, answers[1..], room);
        CursorGrows(t, answers[1..], room);
        if t.stopped {
          StoppedReads(t, answers[1..], room);
        } else {
          StretchIn(log, r, lo, hi);
        }
      } else {
        LogHandedOn(log, t, answers[1..], room);
        if c.stopped {
          StoppedReads(c, answers, room);
        }
      }
      assert forall a :: a in answers ==> a == answers[0] || a in answers[1..];
    }
  }

  lemma {:induction false} NeverFull(log: seq<string>, c: Cursor, answers: seq<Answer>, room: nat)
    requires Prefix(log, c) && InOrder(log, c, answers, room) && !c.stopped && |log| <= room
    requires forall answer :: answer in answers ==> !Refusal(answer)
    ensures !Reading(c, answers, room).stopped
    decreases |answers|
  {
    if answers != [] {
      assert !Refusal(answers[0]);
      if answers[0].Answered? {
        var lo, hi :| 0 <= lo <= hi <= |log| && lo <= c.after && answers[0].lines == Logged(log, lo, hi);
        TakesStretch(log, c, lo, hi, room);
      }
      NeverFull(log, Take(c, answers[0], room), answers[1..], room);
    }
  }

  lemma {:induction false} NewsIn(lines: seq<Line>)
    ensures forall line :: line in News(lines) ==> line in lines
    decreases |lines|
  {
    if lines != [] {
      NewsIn(lines[..|lines| - 1]);
      assert lines == lines[..|lines| - 1] + [lines[|lines| - 1]];
    }
  }

  predicate SomeAnswered(answers: seq<Answer>, line: Line) {
    exists a :: a in answers && a.Answered? && line in a.lines
  }

  lemma {:induction false} HeardIn(answers: seq<Answer>, line: Line)
    requires line in Heard(answers)
    ensures SomeAnswered(answers, line)
  {
    var first := if answers[0].Answered? then answers[0].lines else [];
    assert Heard(answers) == first + Heard(answers[1..]);
    if line in first {
      assert answers[0] in answers;
    } else {
      HeardIn(answers[1..], line);
      var a :| a in answers[1..] && a.Answered? && line in a.lines;
      assert a in answers;
    }
  }

  /**
   * With the log answered in order, no read refused for good and room for it all, the reads go on, and what was handed
   * on is the log from place 1 as far as any line of it was answered.
   */
  lemma LogHandedWhole(log: seq<string>, answers: seq<Answer>, room: nat)
    requires InOrder(log, START, answers, room) && |log| <= room
    requires forall answer :: answer in answers ==> !Refusal(answer)
    ensures var r := Reading(START, answers, room);
      && !r.stopped && Prefix(log, r)
      && forall line :: line in r.handed <==> SomeAnswered(answers, line)
  {
    var r := Reading(START, answers, room);
    assert Logged(log, 0, 0) == [];
    LogHandedOn(log, START, answers, room);
    NeverFull(log, START, answers, room);
    HandedExactly(answers, room);
    NewsIn(Heard(answers));
    forall line | line in r.handed ensures SomeAnswered(answers, line) {
      assert line in News(Heard(answers));
      HeardIn(answers, line);
    }
  }

  lemma {:induction false} LinesGrow(c: Cursor, lines: seq<Line>, room: nat)
    ensures var t := TakeLines(c, lines, room);
            c.after <= t.after && c.handed <= t.handed
            && forall i :: |c.handed| <= i < |t.handed| ==> t.handed[i].place > c.after
    decreases |lines|
  {
    if lines != [] {
      LinesGrow(TakeLine(c, lines[0], room), lines[1..], room);
    }
  }

  /**
   * The cursor never goes back, and nothing at or before it is handed on again: a line a read skipped is never handed
   * on.
   */
  lemma {:induction false} CursorGrows(c: Cursor, answers: seq<Answer>, room: nat)
    ensures var r := Reading(c, answers, room);
            c.after <= r.after && c.handed <= r.handed
            && forall i :: |c.handed| <= i < |r.handed| ==> r.handed[i].place > c.after
    decreases |answers|
  {
    if answers != [] {
      if answers[0].Answered? {
        LinesGrow(c, answers[0].lines, room);
      }
      CursorGrows(Take(c, answers[0], room), answers[1..], room);
    }
  }
}
