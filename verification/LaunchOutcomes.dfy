/** How each signal leaves a launch: which go on, which end it, and as what. */
module LaunchOutcomes {
  import opened Basics
  import opened Launch
  import opened LaunchHistory
  import opened LaunchProofs
  import opened LaunchTheorems

  /** The answer to the next request; with none to come it is refused, as one not answered in time. */
  function NextAnswer(s: State): Answer {
    if s.script == [] then Refused(None, None) else s.script[0].answer
  }

  /** A message of one line's blocks, under the line's own id. */
  predicate OfLine(message: Outgoing, uuid: string, content: seq<Block>) {
    message.clientId == Given(uuid) && message.lines == [Given(uuid)] && BlocksIn(message.input) == Some(content)
  }

  /**
   * A message read with no turn running starts one of its own, that app-server is to name; any other answer, or none,
   * fails the launch.
   */
  lemma MessageStarts(c: Config, s: State, uuid: string, content: seq<Block>)
    requires s.turnId.None? && s.sent == []
    ensures var r := TakeSignal(c, s, LineRead(Message(Some(uuid), content)));
      if NextAnswer(s).Answered? && NextAnswer(s).turn.Some? then
        && r.On? && r.s.turnId == NextAnswer(s).turn && !r.s.warm && r.s.waiting == s.waiting
        && |r.s.sent| == 1 && OfLine(r.s.sent[0], uuid, content)
      else r.Threw?
  {
    var o := Alone(Given(uuid), content);
    var read := ReadMessage(s, Some(uuid), content);
    var asked := AskTurn(read, [o]);
    InputReadsBack(content);
    assert Merged([o], read.minted) == o;
    if NextAnswer(s).Answered? && NextAnswer(s).turn.Some? {
      var begun := Tell(Pause(asked), Began(NextAnswer(s).turn.value)).(turnId := NextAnswer(s).turn, sent := [o]);
      AcceptingPends(begun, o.lines);
    }
  }

  /** A refusal that means the turn cannot be steered just now. */
  predicate NotNow(answer: Answer) {
    answer.Refused?
    && (answer.data == Some(ActiveTurnNotSteerable) || (answer.data == None && answer.code == Some(-32600)))
  }

  /**
   * A message read while a turn runs is steered into it: taken, it stands last of those sent; told that the turn is not
   * steerable, or that the request is invalid with nothing more said, it stands last of those waiting; and any other
   * refusal, or no answer in time, fails the launch.
   */
  lemma MessageSteers(c: Config, s: State, uuid: string, content: seq<Block>)
    requires s.turnId.Some? && forall p :: p in s.sent ==> p.clientId != Given(uuid)
    ensures var r, answer := TakeSignal(c, s, LineRead(Message(Some(uuid), content))), NextAnswer(s);
      if answer.Answered? then
        && r.On? && r.s.turnId == s.turnId && r.s.waiting == s.waiting
        && |r.s.sent| == |s.sent| + 1 && r.s.sent[..|s.sent|] == s.sent && OfLine(r.s.sent[|s.sent|], uuid, content)
      else if NotNow(answer) then
        && r.On? && r.s.turnId == s.turnId && r.s.sent == s.sent
        && |r.s.waiting| == |s.waiting| + 1 && r.s.waiting[..|s.waiting|] == s.waiting
        && OfLine(r.s.waiting[|s.waiting|], uuid, content)
      else r.Threw?
  {
    InputReadsBack(content);
    if NextAnswer(s).Answered? {
      TakenSteer(c, s, uuid, content);
    } else if NotNow(NextAnswer(s)) {
      HeldSteer(c, s, uuid, content);
    }
  }

  /**
   * A stop that names another launch changes nothing. One for this launch ends it STOPPED with no turn running, and
   * with one asks app-server to interrupt it: the launch goes on for the turn where app-server answers, and ends
   * STOPPED where it does not.
   */
  lemma StopActs(c: Config, s: State, launch: Option<nat>)
    ensures var r := TakeSignal(c, s, LineRead(Stop(launch)));
      if launch.Some? && launch.value != c.firstSequence then r == On(s)
      else if s.turnId.None? then r == Ended(s, Stopped)
      else if NextAnswer(s).Answered? then
        r.On? && r.s.stopping && r.s.turnId == s.turnId && r.s.sent == s.sent && r.s.waiting == s.waiting
      else r.Ended? && r.end == Stopped
  {
  }

  /**
   * A launch retired ends IDLED exactly where it is warm with nothing to do; its input closed ends it exactly where no
   * turn runs and nothing waits; app-server's exit or an undelivered post fails it in any state; and a line of another
   * kind changes nothing.
   */
  lemma OthersAct(c: Config, s: State, line: Line)
    ensures TakeSignal(c, s, LineRead(Retire))
      == if s.warm && s.turnId.None? && s.waiting == [] then Ended(s, Idled) else On(s)
    ensures TakeSignal(c, s, InputClosed)
      == if s.turnId.None? && s.waiting == [] then Ended(s, ClosedInput) else On(s)
    ensures TakeSignal(c, s, Exited) == TakeSignal(c, s, Undelivered) == Ended(s, FailedLaunch)
    ensures line.Unreadable? || line.Warm? || line.Settings? ==> TakeSignal(c, s, LineRead(line)) == On(s)
  {
  }

  /** The messages sent are a map's: one set again under its key takes the place of the one there. */
  lemma {:induction false} PutAgain(sent: seq<Outgoing>, i: nat, message: Outgoing)
    requires i < |sent| && sent[i].clientId == message.clientId
    requires forall j :: 0 <= j < i ==> sent[j].clientId != message.clientId
    ensures Put(sent, message) == sent[i := message]
  {
    if i > 0 {
      PutAgain(sent[1..], i - 1, message);
      assert sent == [sent[0]] + sent[1..];
    }
  }

  lemma {:induction false} UnderIs(sent: seq<Outgoing>, i: nat)
    requires i < |sent| && forall j :: 0 <= j < i ==> sent[j].clientId != sent[i].clientId
    ensures Under(sent, sent[i].clientId) == Some(sent[i])
    ensures Launch.Without(sent, sent[i].clientId) == sent[..i] + sent[i + 1..]
  {
    if i > 0 {
      UnderIs(sent[1..], i - 1);
      assert sent[0].clientId != sent[i].clientId && sent == [sent[0]] + sent[1..];
    }
  }

  lemma {:induction false} UnderNone(sent: seq<Outgoing>, clientId: Id)
    requires forall j :: 0 <= j < |sent| ==> sent[j].clientId != clientId
    ensures Under(sent, clientId) == None
  {
    if sent != [] {
      UnderNone(sent[1..], clientId);
    }
  }

  /** A message reported taken is no longer sent, and its lines are reported; one not sent changes nothing. */
  lemma TakenActs(c: Config, s: State, i: nat, other: Id)
    requires i < |s.sent| && forall j :: 0 <= j < i ==> s.sent[j].clientId != s.sent[i].clientId
    requires forall j :: 0 <= j < |s.sent| ==> s.sent[j].clientId != other
    ensures TakeSignal(c, s, MessageTaken(s.sent[i].clientId))
      == On(s.(sent := s.sent[..i] + s.sent[i + 1..], told := Then(s.told, Taken(s.sent[i].lines))))
    ensures TakeSignal(c, s, MessageTaken(other)) == On(s)
  {
    UnderIs(s.sent, i);
    UnderNone(s.sent, other);
  }

  lemma {:induction false} ExtendsTrans(h: History, mid: History, earlier: History)
    requires Extends(h, mid) && Extends(mid, earlier)
    ensures Extends(h, earlier)
  {
    if h != mid {
      ExtendsTrans(h.before, mid, earlier);
    }
  }

  predicate Grows(s: State, t: State) {
    Extends(t.told, s.told)
  }

  lemma GrowsTrans(s: State, t: State, u: State)
    requires Grows(s, t) && Grows(t, u)
    ensures Grows(s, u)
  {
    ExtendsTrans(u.told, t.told, s.told);
  }

  lemma StartTurnGrows(s: State, messages: seq<Outgoing>)
    ensures Grows(s, StartTurn(s, messages).s)
  {
    var asked := AskTurn(s, messages);
    assert Extends(asked.told, s.told);
    if AnswerTo(asked).Answered? && AnswerTo(asked).turn.Some? {
      var o, turn := Merged(messages, s.minted), AnswerTo(asked).turn.value;
      var begun := Tell(Pause(asked), Began(turn)).(turnId := Some(turn), sent := Put(Pause(asked).sent, o));
      assert Extends(begun.told, s.told);
      AcceptingExtends(begun, o.lines, s.told);
    }
  }

  lemma SteerGrows(s: State, o: Outgoing)
    ensures Grows(s, Steer(s, o).s)
  {
    var asked := Tell(s, AskedSteer(o));
    assert Extends(asked.told, s.told);
    var p := Pause(asked);
    var steered := Tell(p, Steered).(sent := Put(p.sent, o));
    assert Extends(steered.told, s.told);
    AcceptingExtends(steered, o.lines, s.told);
  }

  lemma LineGrows(c: Config, s: State, line: Line)
    ensures Grows(s, TakeLine(c, s, line).s)
  {
    if line.Message? {
      var read, o := ReadMessage(s, line.uuid, line.content), Alone(MessageId(s, line.uuid), line.content);
      assert Grows(s, read);
      if s.turnId.None? {
        StartTurnGrows(read, [o]);
        GrowsTrans(s, read, StartTurn(read, [o]).s);
      } else {
        SteerGrows(read, o);
        GrowsTrans(s, read, Steer(read, o).s);
      }
    }
  }

  lemma CompletedGrows(c: Config, s: State, turnId: string, status: TurnStatus)
    ensures var r := TakeTurnCompleted(c, s, turnId, status);
      Grows(s, r.s) && (s.turnId == Some(turnId) ==> Extends(r.s.told, Then(s.told, TurnOver)))
    decreases Pending(s), 1
  {
    if s.turnId == Some(turnId) {
      var told := Tell(s, TurnOver).(turnId := None);
      PausePends(told);
      if !s.stopping && status != Failed && status != Interrupted {
        var cleared := Pause(told).(sent := [], waiting := []);
        if s.sent + s.waiting != [] {
          StartTurnGrows(cleared, s.sent + s.waiting);
        } else {
          DrainGrows(c, cleared);
        }
      }
      GrowsTrans(s, told, TakeTurnCompleted(c, s, turnId, status).s);
    }
  }

  lemma DrainGrows(c: Config, s: State)
    ensures Grows(s, Drain(c, s).s)
    decreases Pending(s), 0
  {
    var looked := Pause(s);
    PausePends(s);
    if looked.signals == [] {
      assert Grows(looked, Tell(looked, FoundEmpty));
    } else {
      var popped := looked.(signals := looked.signals[1..]);
      SignalGrows(c, popped, looked.signals[0]);
      var done := TakeSignal(c, popped, looked.signals[0]);
      if done.On? {
        DrainGrows(c, done.s);
        GrowsTrans(popped, done.s, Drain(c, done.s).s);
      }
    }
  }

  /** Whatever is acted on, what the history said it says still. */
  lemma SignalGrows(c: Config, s: State, signal: Signal)
    ensures Grows(s, TakeSignal(c, s, signal).s)
    decreases Pending(s), 2
  {
    match signal
    case LineRead(line) => LineGrows(c, s, line);
    case TurnCompleted(turnId, status) => CompletedGrows(c, s, turnId, status);
    case _ =>
  }

  /**
   * A completion of a turn that does not run changes nothing. Of the one that does: a stop taken makes it the launch's
   * end; a turn that failed or was interrupted fails the launch; and otherwise the turn is over.
   */
  lemma CompletedActs(c: Config, s: State, turnId: string, status: TurnStatus)
    ensures var r := TakeSignal(c, s, TurnCompleted(turnId, status));
      if s.turnId != Some(turnId) then r == On(s)
      else if s.stopping then r.Ended? && r.end == Stopped
      else if status == Failed || status == Interrupted then r.Ended? && r.end == FailedLaunch
      else Extends(r.s.told, Then(s.told, TurnOver))
  {
    if s.turnId == Some(turnId) && !s.stopping && status != Failed && status != Interrupted {
      CompletedGrows(c, s, turnId, status);
    }
  }

  /**
   * With nothing queued the launch waits: a warm one ends IDLED exactly where its window passes with nothing come, and
   * what came is otherwise queued and nothing else changed.
   */
  lemma WindowEnds(c: Config, s: State)
    requires s.signals == [] && s.script != []
    ensures var r, came := Iterate(c, s), s.script[0].arrivals;
      if s.warm && s.script[0].lapsed && came == [] then r.Finished? && r.end == Idled
      else r == Running(s.(signals := came, script := s.script[1..]))
  {
    assert [] + s.script[0].arrivals == s.script[0].arrivals;
  }
}
