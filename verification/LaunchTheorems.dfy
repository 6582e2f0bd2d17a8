/**
 * What the service may rely on of a launch of Codex, in every run: for any signals, any answers of app-server and any
 * interleaving of the two, given only that the service gives no two of its lines one id.
 */
module LaunchTheorems {
  import opened Basics
  import opened Launch
  import opened LaunchHistory
  import opened LaunchProofs

  /**
   * No message is lost and none held twice: at every rest point each line read is reported taken, carried by exactly
   * one message sent, or waiting, and by one of the three alone.
   */
  lemma LinesConserved(c: Config, script: seq<Moment>, n: nat, line: Id)
    requires NoRepeat(ScriptIds(script))
    ensures var r := After(c, Start(c, script), n);
            r.Running? ==>
              && var taken, sent, waiting := TakenLines(r.s.told)[line], multiset(LinesOf(r.s.sent))[line],
                                             multiset(LinesOf(r.s.waiting))[line];
              && taken + sent + waiting == (if line in Arrivals(r.s.told) then 1 else 0)
              && (line in LinesOf(r.s.sent) ==>
                    exists i :: 0 <= i < |r.s.sent| && OnlyCarrier(r.s.sent, i, line))
  {
    EveryRun(c, script, n);
    var r := After(c, Start(c, script), n);
    if r.Running? {
      var s := r.s;
      LinesOfConcat(s.sent, s.waiting);
      OwedOnce(s, s.sent + s.waiting, multiset{}, line);
      assert line in Arrivals(s.told) <==> multiset(Arrivals(s.told))[line] > 0;
      if line in LinesOf(s.sent) {
        OneCarrier(s.sent, line);
      }
    }
  }

  ghost predicate OnlyCarrier(sent: seq<Outgoing>, i: nat, line: Id) {
    && i < |sent| && line in sent[i].lines
    && forall j :: 0 <= j < |sent| && line in sent[j].lines ==> j == i
  }

  lemma {:induction false} NoCarrier(messages: seq<Outgoing>, line: Id)
    requires line !in LinesOf(messages)
    ensures forall o :: o in messages ==> line !in o.lines
  {
    if messages != [] {
      NoCarrier(messages[1..], line);
    }
  }

  lemma {:induction false} OneCarrier(sent: seq<Outgoing>, line: Id)
    requires multiset(LinesOf(sent))[line] == 1
    ensures exists i :: 0 <= i < |sent| && OnlyCarrier(sent, i, line)
  {
    assert sent != [];
    var first, rest := sent[0].lines, LinesOf(sent[1..]);
    assert LinesOf(sent) == first + rest && multiset(LinesOf(sent)) == multiset(first) + multiset(rest);
    if line in first {
      assert multiset(first)[line] > 0 && multiset(rest)[line] == 0;
      NoCarrier(sent[1..], line);
      forall j | 1 <= j < |sent| ensures line !in sent[j].lines {
        assert sent[j] == sent[1..][j - 1];
      }
      assert OnlyCarrier(sent, 0, line);
    } else {
      assert multiset(first)[line] == 0;
      OneCarrier(sent[1..], line);
      var i :| 0 <= i < |sent[1..]| && OnlyCarrier(sent[1..], i, line);
      assert forall j :: 1 <= j < |sent| ==> sent[j] == sent[1..][j - 1];
      assert OnlyCarrier(sent, i + 1, line);
    }
  }

  /**
   * ACCEPTED is said of no line twice over a whole launch, re-sends and merges included; and at every rest point it was
   * said of exactly the lines taken or sent, and of none that waits.
   */
  lemma AcceptedExactly(c: Config, script: seq<Moment>, n: nat, line: Id)
    requires NoRepeat(ScriptIds(script))
    ensures var r := After(c, Start(c, script), n);
            && TimesAccepted(r.s.told, line) <= 1
            && (r.Running? ==>
                  && (TimesAccepted(r.s.told, line) == 1 <==>
                        line in TakenLines(r.s.told) || line in LinesOf(r.s.sent))
                  && (line in LinesOf(r.s.waiting) ==> TimesAccepted(r.s.told, line) == 0))
  {
    EveryRun(c, script, n);
    var r := After(c, Start(c, script), n);
    AcceptedOnce(r.s.told, line);
    if r.Running? {
      LinesOfConcat(r.s.sent, r.s.waiting);
    }
  }

  /**
   * An end that is neither a stop's nor a failure's leaves nothing unanswered: no turn runs, no message is sent or
   * waits, every line read was taken. One called over found the queue empty, in a launch not configured warm; one
   * idled was configured warm.
   */
  lemma EndsClean(c: Config, script: seq<Moment>, n: nat)
    requires NoRepeat(ScriptIds(script))
    ensures var r := After(c, Start(c, script), n);
            r.Finished? && r.end != FailedLaunch && r.end != Stopped ==>
              && r.s.turnId.None? && r.s.sent == [] && r.s.waiting == []
              && multiset(Arrivals(r.s.told)) == TakenLines(r.s.told)
              && (r.end == TurnEnded ==> !c.warm && r.s.signals == [] && r.s.told.Then? && r.s.told.now == FoundEmpty)
              && (r.end == Idled ==> c.warm)
  {
    EveryRun(c, script, n);
  }

  /** Every IDLE said over the whole launch was said with the queue just found empty, no turn, and every line taken. */
  lemma {:induction false} IdleMeansAnswered(h: History, before: History)
    requires WellTold(h) && Extends(h, Then(before, SaidIdle))
    ensures before.Then? && before.now == FoundEmpty && RunningTurn(before).None?
    ensures multiset(Arrivals(before)) == TakenLines(before)
  {
    if h != Then(before, SaidIdle) {
      IdleMeansAnswered(h.before, before);
    }
  }

  /**
   * A drain that comes to the completion of a turn begun inside it says IDLE twice over one rest: the completion says
   * it with the queue found empty, and the drain then finds it empty again and says it too.
   */
  lemma NestedCompletionIdlesAgain(c: Config, s: State, turn: string)
    requires c.warm && s.turnId == Some(turn) && s.sent == [] && s.waiting == [] && !s.stopping
    requires s.signals == [TurnCompleted(turn, Completed)] && s.script == []
    ensures var over := Then(s.told, TurnOver);
            var said := Then(Then(over, FoundEmpty), SaidIdle);
            Drain(c, s).On? && Drain(c, s).s.told == Then(Then(said, FoundEmpty), SaidIdle)
  {
    assert s.signals[1..] == [];
    var taken := s.(signals := []);
    var over := Tell(taken, TurnOver).(turnId := None);
    assert taken.sent + taken.waiting == [] && over == over.(sent := [], waiting := []);
    NothingToDrain(c, over);
    assert TakeSignal(c, taken, s.signals[0]) == TakeTurnCompleted(c, taken, turn, Completed) == Drain(c, over);
    NothingToDrain(c, Drain(c, over).s);
    assert Drain(c, s) == Drain(c, Drain(c, over).s);
  }

  lemma NothingToDrain(c: Config, s: State)
    requires c.warm && s.turnId.None? && s.signals == [] && s.script == []
    ensures Drain(c, s) == On(Tell(Tell(s, FoundEmpty), SaidIdle).(warm := true))
  {
  }

  /**
   * The phases of a launch: with no turn running nothing is sent or waits; warm is being configured warm with no turn
   * running; a stop taken waits on a turn; and the history tells of the same turn, stop and lines accepted.
   */
  lemma PhaseHolds(c: Config, script: seq<Moment>, n: nat)
    requires NoRepeat(ScriptIds(script))
    ensures var r := After(c, Start(c, script), n);
            && WellTold(r.s.told)
            && (r.Running? ==>
                  && (r.s.turnId.None? ==> r.s.sent == [] && r.s.waiting == [])
                  && (r.s.warm <==> c.warm && r.s.turnId.None?)
                  && (r.s.stopping ==> r.s.turnId.Some?)
                  && RunningTurn(r.s.told) == r.s.turnId && StopSeen(r.s.told) == r.s.stopping
                  && AcceptedLines(r.s.told) == r.s.accepted)
  {
    EveryRun(c, script, n);
  }

  lemma StoppedAtTurnOver(c: Config, s: State, status: TurnStatus)
    requires s.turnId.Some? && s.stopping
    ensures var done := TakeSignal(c, s, TurnCompleted(s.turnId.value, status)); done.Ended? && done.end == Stopped
  {
  }

  /**
   * A stop is final: the launch goes on only for the turn the stop found, whose completion ends it STOPPED whatever its
   * status, and it ends no other way but by failing.
   */
  lemma StopIsFinal(c: Config, script: seq<Moment>, n: nat, status: TurnStatus)
    requires NoRepeat(ScriptIds(script))
    ensures var r := After(c, Start(c, script), n);
            StopSeen(r.s.told) ==>
              && (r.Running? ==>
                    r.s.turnId.Some? && var done := TakeSignal(c, r.s, TurnCompleted(r.s.turnId.value, status));
                    done.Ended? && done.end == Stopped)
              && (r.Finished? ==> r.end == Stopped || r.end == FailedLaunch)
  {
    EveryRun(c, script, n);
    var r := After(c, Start(c, script), n);
    if r.Running? && StopSeen(r.s.told) {
      StoppedAtTurnOver(c, r.s, status);
    }
  }

  /** What a state told stands in all it later tells. */
  lemma {:induction false} AcceptingExtends(s: State, lines: seq<Id>, h: History)
    requires Extends(s.told, h)
    ensures Extends(Accepting(s, lines).told, h)
    decreases lines
  {
    if lines != [] {
      if lines[0] in s.accepted {
        AcceptingExtends(s, lines[1..], h);
      } else {
        AcceptingExtends(Tell(s, SaidAccepted(lines[0])).(accepted := s.accepted + {lines[0]}), lines[1..], h);
      }
    }
  }

  /**
   * A turn completed with messages unanswered starts one turn of them all: the messages sent, in the order they were,
   * then those waiting, in theirs, their content and their lines end to end.
   */
  lemma UnansweredSentAgain(c: Config, s: State, turnId: string, status: TurnStatus)
    requires s.turnId == Some(turnId) && !s.stopping && status != Failed && status != Interrupted
    requires s.sent + s.waiting != []
    ensures exists m, before ::
              && Extends(TakeTurnCompleted(c, s, turnId, status).s.told, Then(before, AskedStart(m)))
              && before == Then(s.told, TurnOver)
              && m.lines == LinesOf(s.sent) + LinesOf(s.waiting) && m.input == InputsOf(s.sent) + InputsOf(s.waiting)
  {
    var unanswered := s.sent + s.waiting;
    var over := Pause(Tell(s, TurnOver).(turnId := None)).(sent := [], waiting := []);
    var asked := AskTurn(over, unanswered);
    var m := Merged(unanswered, over.minted);
    MergedCarriesAll(unanswered, over.minted);
    LinesOfConcat(s.sent, s.waiting);
    InputsOfConcat(s.sent, s.waiting);
    assert asked.told == Then(Then(s.told, TurnOver), AskedStart(m));
    if AnswerTo(asked).Answered? && AnswerTo(asked).turn.Some? {
      var turn := AnswerTo(asked).turn.value;
      var began := Tell(Pause(asked), Began(turn)).(turnId := Some(turn), sent := Put(Pause(asked).sent, m));
      AcceptingExtends(began, m.lines, asked.told);
    }
  }

  lemma {:induction false} InputsOfConcat(a: seq<Outgoing>, b: seq<Outgoing>)
    ensures InputsOf(a + b) == InputsOf(a) + InputsOf(b)
  {
    if a == [] {
      assert a + b == b;
    } else {
      calc {
        InputsOf(a + b);
        { assert (a + b)[0] == a[0] && (a + b)[1..] == a[1..] + b; }
        a[0].input + InputsOf(a[1..] + b);
        { InputsOfConcat(a[1..], b); }
        a[0].input + (InputsOf(a[1..]) + InputsOf(b));
        InputsOf(a) + InputsOf(b);
      }
    }
  }

  /** Some line still owed had its steer accepted after that of another still owed was refused. */
  ghost predicate SomeOvertook(h: History, lines: seq<Id>) {
    exists a, b :: a in lines && b in lines && a != b && Overtook(h, a, b)
  }

  /**
   * What is sent again is in the order the lines arrived in exactly where, of the lines still owed, none had its steer
   * accepted in a turn that had refused another's.
   */
  lemma ResentInOrder(c: Config, script: seq<Moment>, n: nat)
    requires NoRepeat(ScriptIds(script))
    ensures var r := After(c, Start(c, script), n);
            r.Running? ==>
              var lines := LinesOf(r.s.sent) + LinesOf(r.s.waiting);
              InOrder(lines, Arrivals(r.s.told)) <==> !SomeOvertook(r.s.told, lines)
  {
    EveryRun(c, script, n);
    var r := After(c, Start(c, script), n);
    if r.Running? {
      var lines, h := LinesOf(r.s.sent) + LinesOf(r.s.waiting), r.s.told;
      LinesOfConcat(r.s.sent, r.s.waiting);
      forall l ensures multiset(Arrivals(h))[l] <= 1 {
        OwedOnce(r.s, r.s.sent + r.s.waiting, multiset{}, l);
      }
      OrderedExactly(h, lines);
    }
  }

  lemma OnceAt(order: seq<Id>, i: nat, j: nat)
    requires i < j < |order| && multiset(order)[order[i]] <= 1
    ensures order[i] != order[j]
  {
    var front, back := order[..j], order[j..];
    assert order == front + back && multiset(order) == multiset(front) + multiset(back);
    assert front[i] in multiset(front) && back[0] in multiset(back);
  }

  /** No line arrived both before and after another. */
  lemma NotBoth(a: Id, b: Id, order: seq<Id>)
    requires forall l :: multiset(order)[l] <= 1
    ensures !(Before(a, b, order) && Before(b, a, order))
  {
    if Before(a, b, order) && Before(b, a, order) {
      var i, j :| 0 <= i < j < |order| && order[i] == a && order[j] == b;
      var p, q :| 0 <= p < q < |order| && order[p] == b && order[q] == a;
      if i < q {
        OnceAt(order, i, q);
      } else {
        OnceAt(order, p, j);
      }
    }
  }

  lemma OvertakenApart(h: History, lines: seq<Id>, i: nat, j: nat)
    requires Ordered(h, lines) && forall l :: multiset(Arrivals(h))[l] <= 1
    requires i < |lines| && j < |lines| && i != j && Overtook(h, lines[i], lines[j])
    ensures j < i && !Before(lines[j], lines[i], Arrivals(h))
  {
    assert i < j ==> Placed(h, lines[i], lines[j]);
    assert j < i ==> Placed(h, lines[j], lines[i]);
    NotBoth(lines[i], lines[j], Arrivals(h));
  }

  lemma OrderedExactly(h: History, lines: seq<Id>)
    requires Ordered(h, lines) && forall l :: multiset(Arrivals(h))[l] <= 1
    ensures InOrder(lines, Arrivals(h)) <==> !SomeOvertook(h, lines)
  {
    if SomeOvertook(h, lines) {
      var a, b :| a in lines && b in lines && a != b && Overtook(h, a, b);
      var i :| 0 <= i < |lines| && lines[i] == a;
      var j :| 0 <= j < |lines| && lines[j] == b;
      OvertakenApart(h, lines, i, j);
    } else {
      forall i, j | 0 <= i < j < |lines| ensures Before(lines[i], lines[j], Arrivals(h)) {
        assert Placed(h, lines[i], lines[j]);
      }
    }
  }

  /** A steer refused that waits: the message waits last, and nothing but what arrived meanwhile is new. */
  lemma HeldSteer(c: Config, s: State, uuid: string, content: seq<Block>)
    requires s.turnId.Some? && s.script != []
    requires s.script[0].answer.Refused? && SteerWaits(s.script[0].answer.code, s.script[0].answer.data)
    ensures var r := TakeLine(c, s, Message(Some(uuid), content));
            && r.On? && r.s.turnId == s.turnId && r.s.sent == s.sent && r.s.script == s.script[1..]
            && r.s.waiting == s.waiting + [Alone(Given(uuid), content)]
            && r.s.signals == s.signals + s.script[0].arrivals && Arrivals(r.s.told) == Arrivals(s.told) + [Given(uuid)]
  {
    var read := ReadMessage(s, Some(uuid), content);
    assert Arrivals(read.told) == Arrivals(s.told) + [Given(uuid)];
  }

  lemma FreshNames(c: Config, s: State, uuid: string, content: seq<Block>)
    requires Inv(c, s, IdsOf(LineRead(Message(Some(uuid), content))))
    ensures forall p :: p in s.sent ==> p.clientId != Given(uuid)
  {
    ReadMessageOwes(c, s, Some(uuid), content);
    forall p | p in s.sent ensures p.clientId != Given(uuid) {
      assert p in s.sent + s.waiting && Named(s.told, s.minted, p);
    }
  }

  lemma TakenSteer(c: Config, s: State, uuid: string, content: seq<Block>)
    requires forall p :: p in s.sent ==> p.clientId != Given(uuid)
    requires s.turnId.Some? && s.script != [] && s.script[0].answer.Answered?
    ensures var r := TakeLine(c, s, Message(Some(uuid), content));
            && r.On? && r.s.turnId == s.turnId && r.s.waiting == s.waiting
            && r.s.sent == s.sent + [Alone(Given(uuid), content)]
            && Arrivals(r.s.told) == Arrivals(s.told) + [Given(uuid)]
  {
    var o := Alone(Given(uuid), content);
    var read := ReadMessage(s, Some(uuid), content);
    assert Arrivals(read.told) == Arrivals(s.told) + [Given(uuid)];
    PutLast(s.sent, o);
    var asked := Tell(read, AskedSteer(o));
    assert AnswerTo(asked) == s.script[0].answer && Pause(asked).sent == s.sent;
    var steered := Tell(Pause(asked), Steered).(sent := s.sent + [o]);
    AcceptingPends(steered, o.lines);
    AcceptingArrivals(steered, o.lines);
  }

  lemma {:induction false} AcceptingArrivals(s: State, lines: seq<Id>)
    ensures Arrivals(Accepting(s, lines).told) == Arrivals(s.told)
    decreases lines
  {
    if lines != [] {
      if lines[0] in s.accepted {
        AcceptingArrivals(s, lines[1..]);
      } else {
        AcceptingArrivals(Tell(s, SaidAccepted(lines[0])).(accepted := s.accepted + {lines[0]}), lines[1..]);
      }
    }
  }

  /**
   * A turn that refuses a steer and then accepts one leaves the later line ahead of the earlier, to be sent again so.
   */
  lemma OvertakingReorders(c: Config, s: State, b: string, bContent: seq<Block>, d: string, dContent: seq<Block>)
    requires Inv(c, s, multiset{}) && s.turnId.Some?
    requires |s.signals| >= 2 && s.signals[0] == LineRead(Message(Some(b), bContent))
    requires s.signals[1] == LineRead(Message(Some(d), dContent))
    requires |s.script| >= 2 && s.script[1].answer.Answered?
    requires s.script[0].answer.Refused? && SteerWaits(s.script[0].answer.code, s.script[0].answer.data)
    ensures var r := After(c, s, 2);
            r.Running? && !InOrder(LinesOf(r.s.sent) + LinesOf(r.s.waiting), Arrivals(r.s.told))
  {
    assert After(c, s, 0) == Running(s);
    PopInv(c, s);
    HeldSteer(c, s.(signals := s.signals[1..]), b, bContent);
    TakeSignalKeeps(c, s.(signals := s.signals[1..]), s.signals[0]);
    var s1 := TakeSignal(c, s.(signals := s.signals[1..]), s.signals[0]).s;
    assert After(c, s, 1) == Running(s1);
    assert s1.signals[0] == s.signals[1] && s1.script[0] == s.script[1];
    PopInv(c, s1);
    FreshNames(c, s1.(signals := s1.signals[1..]), d, dContent);
    TakenSteer(c, s1.(signals := s1.signals[1..]), d, dContent);
    TakeSignalKeeps(c, s1.(signals := s1.signals[1..]), s1.signals[0]);
    var s2 := TakeSignal(c, s1.(signals := s1.signals[1..]), s1.signals[0]).s;
    assert After(c, s, 2) == Running(s2);
    OwedOnce(s2, s2.sent + s2.waiting, multiset{}, Given(d));
    LinesAdd(s.sent, Alone(Given(d), dContent));
    LinesAdd(s.waiting, Alone(Given(b), bContent));
    Reordered(LinesOf(s.sent), LinesOf(s.waiting), Arrivals(s.told), Given(b), Given(d));
  }

  lemma Reordered(sent: seq<Id>, waiting: seq<Id>, arrived: seq<Id>, b: Id, d: Id)
    requires multiset(arrived + [b] + [d])[d] <= 1
    ensures !InOrder(sent + [d] + (waiting + [b]), arrived + [b] + [d])
  {
    var lines := sent + [d] + (waiting + [b]);
    assert lines[|sent|] == d && lines[|lines| - 1] == b;
    MultisetAdd(arrived + [b], d);
    assert d !in arrived + [b];
    assert !Before(d, b, arrived + [b] + [d]);
  }

  /** All the loop does over a script is one of the points its turns reach, so what holds at every one holds of it. */
  lemma RunIsAfter(c: Config, s: State) returns (n: nat)
    ensures Run(c, s) == After(c, s, n)
  {
    assert After(c, s, 0) == Running(s);
    n := RunFrom(c, s, 0, s);
  }

  lemma {:induction false} RunFrom(c: Config, start: State, k: nat, s: State) returns (n: nat)
    requires After(c, start, k) == Running(s) && Run(c, start) == Run(c, s)
    ensures Run(c, start) == After(c, start, n)
    decreases Pending(s) + |s.script|
  {
    if s.signals == [] && s.script == [] {
      n := k;
    } else {
      var r := NextRound(c, start, k, s);
      n := k + 1;
      if r.Running? {
        n := RunFrom(c, start, k + 1, r.s);
      }
    }
  }

  lemma NextRound(c: Config, start: State, k: nat, s: State) returns (r: Outcome)
    requires After(c, start, k) == Running(s) && (s.signals != [] || s.script != [])
    ensures After(c, start, k + 1) == r && Run(c, s) == if r.Running? then Run(c, r.s) else r
    ensures r.Running? ==> Pending(r.s) + |r.s.script| < Pending(s) + |s.script|
  {
    r := Iterate(c, s);
  }
}
