/** How often IDLE is said over one rest, and whether a launch whose input closed ends with its turn. */
module LaunchIdles {
  import opened Basics
  import opened Launch
  import opened LaunchHistory
  import opened LaunchProofs

  /** The IDLEs said since a turn last began. */
  function Idles(h: History): nat {
    match h
    case Nothing => 0
    case Then(_, Began(_)) => 0
    case Then(before, SaidIdle) => Idles(before) + 1
    case Then(before, _) => Idles(before)
  }

  function Begins(h: History): nat {
    match h
    case Nothing => 0
    case Then(before, Began(_)) => Begins(before) + 1
    case Then(before, _) => Begins(before)
  }

  predicate SameIdles(h: History, h': History) {
    Idles(h') == Idles(h) && Begins(h') == Begins(h) && Arrivals(h') == Arrivals(h)
  }

  /** Between the two a turn began, and a message line was read. */
  predicate BegunOn(h: History, h': History) {
    Begins(h) < Begins(h') && Arrivals(h) < Arrivals(h')
  }

  predicate Onward(h: History, h': History) {
    Begins(h) <= Begins(h') && Arrivals(h) <= Arrivals(h')
  }

  lemma {:induction false} AcceptingIdles(s: State, lines: seq<Id>)
    ensures var r := Accepting(s, lines); SameIdles(s.told, r.told) && r.turnId == s.turnId
    decreases lines
  {
    if lines != [] {
      if lines[0] in s.accepted {
        AcceptingIdles(s, lines[1..]);
      } else {
        AcceptingIdles(Tell(s, SaidAccepted(lines[0])).(accepted := s.accepted + {lines[0]}), lines[1..]);
      }
    }
  }

  /** What a step says of IDLE, where it goes on: a turn it begins runs on after it, or was over before another IDLE. */
  ghost predicate Idling(s: State, r: Step) {
    r.On? ==>
      && Onward(s.told, r.s.told)
      && (s.turnId.None? && r.s.turnId.None? ==> SameIdles(s.told, r.s.told))
      && (s.turnId.None? && r.s.turnId.Some? ==> BegunOn(s.told, r.s.told))
      && (s.turnId.Some? && r.s.turnId.None? ==> Idles(r.s.told) >= 1)
  }

  lemma StartIdles(s: State, messages: seq<Outgoing>)
    ensures var r := StartTurn(s, messages);
      r.On? ==> r.s.turnId.Some? && Begins(r.s.told) == Begins(s.told) + 1 && Arrivals(r.s.told) == Arrivals(s.told)
  {
    var asked := AskTurn(s, messages);
    if AnswerTo(asked).Answered? && AnswerTo(asked).turn.Some? {
      var o, turn, paused := Merged(messages, s.minted), AnswerTo(asked).turn.value, Pause(asked);
      var begun := Tell(paused, Began(turn)).(turnId := Some(turn), sent := Put(paused.sent, o));
      assert SameIdles(s.told, asked.told) && paused.told == asked.told;
      assert Begins(begun.told) == Begins(paused.told) + 1;
      AcceptingIdles(begun, o.lines);
    }
  }

  lemma SteerIdles(s: State, o: Outgoing)
    ensures var r := Steer(s, o); r.On? ==> r.s.turnId == s.turnId && SameIdles(s.told, r.s.told)
  {
    var asked := Tell(s, AskedSteer(o));
    if AnswerTo(asked).Answered? {
      var steered := Tell(Pause(asked), Steered).(sent := Put(Pause(asked).sent, o));
      assert SameIdles(s.told, asked.told) && SameIdles(asked.told, steered.told);
      AcceptingIdles(steered, o.lines);
    }
  }

  lemma LineIdles(c: Config, s: State, line: Line)
    ensures Idling(s, TakeLine(c, s, line))
  {
    match line
    case Message(uuid, content) =>
      var o, read := Alone(MessageId(s, uuid), content), ReadMessage(s, uuid, content);
      assert Idles(read.told) == Idles(s.told) && Begins(read.told) == Begins(s.told) && read.turnId == s.turnId;
      assert Arrivals(read.told) == Arrivals(s.told) + [o.clientId];
      if s.turnId.None? {
        StartIdles(read, [o]);
      } else {
        SteerIdles(read, o);
      }
    case Stop(_) =>
      var stopping := Tell(s, StopTaken).(stopping := true);
      assert SameIdles(s.told, Pause(stopping).told) && Pause(stopping).turnId == s.turnId;
    case _ =>
  }

  /** What a completion says of IDLE where it leaves no turn. */
  ghost predicate Completing(s: State, r: Step) {
    r.On? ==>
      && Onward(s.told, r.s.told)
      && (r.s.turnId.None? ==>
            if Arrivals(r.s.told) == Arrivals(s.told)
            then Begins(r.s.told) == Begins(s.told) && Idles(r.s.told) == Idles(s.told) + 1
            else Begins(r.s.told) > Begins(s.told) && Idles(r.s.told) >= 2)
  }

  lemma CompletedIdles(c: Config, s: State, turnId: string, status: TurnStatus)
    ensures s.turnId != Some(turnId) ==> TakeTurnCompleted(c, s, turnId, status) == On(s)
    ensures s.turnId == Some(turnId) ==> Completing(s, TakeTurnCompleted(c, s, turnId, status))
    decreases Pending(s), 1
  {
    if s.turnId == Some(turnId) {
      var over := Pause(Tell(s, TurnOver).(turnId := None));
      PausePends(Tell(s, TurnOver).(turnId := None));
      if !s.stopping && status != Failed && status != Interrupted {
        var cleared := over.(sent := [], waiting := []);
        assert SameIdles(s.told, cleared.told);
        if s.sent + s.waiting != [] {
          StartIdles(cleared, s.sent + s.waiting);
        } else {
          DrainIdles(c, cleared);
        }
      }
    }
  }

  /** What a drain says of IDLE, from a state with a turn or with none. */
  ghost predicate DrainSays(s: State, r: Step) {
    && (s.turnId.None? ==> Completing(s, r))
    && (r.On? ==> Onward(s.told, r.s.told))
    && (r.On? && s.turnId.Some? && r.s.turnId.None? ==> Idles(r.s.told) >= 2)
  }

  lemma DrainOn(s: State, mid: State, r: Step)
    requires Idling(s, On(mid)) && DrainSays(mid, r)
    ensures DrainSays(s, r)
  {
  }

  lemma DrainSame(s: State, s': State, r: Step)
    requires s'.told == s.told && s'.turnId == s.turnId && DrainSays(s', r)
    ensures DrainSays(s, r)
  {
  }

  /** The drain: one IDLE where it read no message, and one more for the last of the turns that came of those it did. */
  lemma DrainIdles(c: Config, s: State)
    ensures DrainSays(s, Drain(c, s))
    decreases Pending(s), 0
  {
    var looked := Pause(s);
    PausePends(s);
    if looked.signals != [] {
      var popped := looked.(signals := looked.signals[1..]);
      SignalIdles(c, popped, looked.signals[0]);
      var done := TakeSignal(c, popped, looked.signals[0]);
      if done.On? {
        DrainIdles(c, done.s);
        DrainOn(popped, done.s, Drain(c, done.s));
      }
      DrainSame(s, popped, if done.On? then Drain(c, done.s) else done);
    } else {
      CallOverSays(c, looked);
    }
  }

  lemma CallOverSays(c: Config, s: State)
    ensures DrainSays(s, CallOver(c, Tell(s, FoundEmpty)))
  {
    var found := Tell(s, FoundEmpty);
    assert SameIdles(s.told, found.told);
    assert Idles(Then(found.told, SaidIdle)) == Idles(found.told) + 1;
  }

  lemma SignalIdles(c: Config, s: State, signal: Signal)
    ensures Idling(s, TakeSignal(c, s, signal))
    decreases Pending(s), 2
  {
    match signal
    case LineRead(line) => LineIdles(c, s, line);
    case TurnCompleted(turnId, status) => CompletedIdles(c, s, turnId, status);
    case _ =>
  }

  /** While a turn runs, no IDLE was said since it began. */
  lemma {:induction false} RunningUnidled(h: History)
    requires WellTold(h) && RunningTurn(h).Some?
    ensures Idles(h) == 0
  {
    if !h.now.Began? {
      RunningUnidled(h.before);
    }
  }

  /**
   * A completion that leaves a warm launch at rest says IDLE once exactly where its drain read no message line; a turn
   * began of one it read, was over within it, and IDLE is said again over the one rest.
   */
  lemma IdleOnceExactly(c: Config, s: State, turnId: string, status: TurnStatus)
    requires Inv(c, s, multiset{}) && s.turnId == Some(turnId)
    ensures var r := TakeTurnCompleted(c, s, turnId, status);
            r.On? && r.s.turnId.None? ==>
              && Idles(r.s.told) >= 1 && (Idles(r.s.told) == 1 <==> Arrivals(r.s.told) == Arrivals(s.told))
              && (Begins(r.s.told) == Begins(s.told) <==> Arrivals(r.s.told) == Arrivals(s.told))
  {
    RunningUnidled(s.told);
    CompletedIdles(c, s, turnId, status);
  }

  // ---- A closed input ----

  /**
   * An input closed while a turn runs changes nothing; the completion that then leaves no turn ends the launch where it
   * is not configured warm, and where it is, leaves it warm or ends it for a closing it finds queued.
   */
  lemma InputClosedLetsFinish(c: Config, s: State, turnId: string, status: TurnStatus)
    requires Inv(c, s, multiset{}) && s.turnId == Some(turnId)
    ensures TakeSignal(c, s, InputClosed) == On(s)
    ensures var r := TakeTurnCompleted(c, s, turnId, status);
            && (r.On? && r.s.turnId.None? ==> c.warm && r.s.warm)
            && (r.Ended? && r.end == TurnEnded ==> !c.warm)
  {
    TakeTurnCompletedKeeps(c, s, turnId, status);
  }
}
