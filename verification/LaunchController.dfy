/**
 * The controller as it runs: the launch's fields updated in place by each of its steps, every one proved to do what
 * its specification in `Launch` says, its loops and its recursion included.
 */
module LaunchController {
  import opened Basics
  import opened Launch

  /** What a step answers: the launch goes on, ends, or is failed by a request. */
  datatype Done = GoesOn | Ends(end: End) | Fails

  /** A step's answer and the state it left, as the specification's step. */
  function AsStep(done: Done, s: State): Step {
    match done
    case GoesOn => On(s)
    case Ends(end) => Ended(s, end)
    case Fails => Threw(s)
  }

  class CodexLaunch {
    const config: Config
    /** The signals queued, and what the world still brings. */
    var signals: seq<Signal>
    var script: seq<Moment>
    var turnId: Option<string>
    var sent: seq<Outgoing>
    var waiting: seq<Outgoing>
    var accepted: set<Id>
    var stopping: bool
    var warm: bool
    /** How many ids `randomUUID` has made. */
    var minted: nat
    ghost var told: History

    ghost function View(): State
      reads this
    {
      State(signals, script, turnId, sent, waiting, accepted, stopping, warm, minted, told)
    }

    constructor (config: Config, script: seq<Moment>)
      ensures this.config == config && View() == Start(config, script)
    {
      this.config := config;
      this.script := script;
      signals, turnId, sent, waiting, accepted := [], None, [], [], {};
      stopping, warm, minted, told := false, config.warm, 0, Nothing;
    }

    /** A wait on the world: what arrives meanwhile is queued, and the request waited on answered. */
    method Await() returns (answer: Answer)
      modifies `signals, `script
      ensures answer == AnswerTo(old(View())) && View() == Pause(old(View()))
    {
      if script == [] {
        return Refused(None, None);
      }
      answer := script[0].answer;
      signals, script := signals + script[0].arrivals, script[1..];
    }

    method Accepted(lines: seq<Id>)
      modifies `accepted, `told
      ensures View() == Accepting(old(View()), lines)
    {
      for i := 0 to |lines|
        invariant Accepting(View(), lines[i..]) == Accepting(old(View()), lines)
      {
        assert lines[i..][0] == lines[i] && lines[i..][1..] == lines[i + 1..];
        if lines[i] !in accepted {
          told := Then(told, SaidAccepted(lines[i]));
          accepted := accepted + {lines[i]};
        }
      }
    }

    method StartTurn(messages: seq<Outgoing>) returns (done: Done)
      modifies this
      ensures AsStep(done, View()) == Launch.StartTurn(old(View()), messages)
    {
      var outgoing := Merged(messages, minted);
      if |messages| != 1 {
        minted := minted + 1;
      }
      told := Then(told, AskedStart(outgoing));
      assert View() == AskTurn(old(View()), messages);
      var answer := Await();
      if answer.Refused? || answer.turn.None? {
        return Fails;
      }
      told := Then(told, Began(answer.turn.value));
      turnId := answer.turn;
      sent := Put(sent, outgoing);
      Accepted(outgoing.lines);
      return GoesOn;
    }

    /** A message line: alone it starts a turn where none runs, and is steered into the one that does. */
    method TakeMessage(uuid: Option<string>, content: seq<Block>) returns (done: Done)
      modifies this
      ensures AsStep(done, View()) == Launch.TakeLine(config, old(View()), Message(uuid, content))
    {
      warm := false;
      var id: Id;
      if uuid.Some? {
        id := Given(uuid.value);
      } else {
        id := Minted(minted);
        minted := minted + 1;
      }
      var outgoing := Alone(id, content);
      told := Then(told, Read(id, content));
      assert View() == ReadMessage(old(View()), uuid, content);
      if turnId.None? {
        done := StartTurn([outgoing]);
        return;
      }
      done := Steer(outgoing);
    }

    method Steer(outgoing: Outgoing) returns (done: Done)
      modifies this
      ensures AsStep(done, View()) == Launch.Steer(old(View()), outgoing)
    {
      told := Then(told, AskedSteer(outgoing));
      var answer := Await();
      if answer.Refused? {
        if !SteerWaits(answer.code, answer.data) {
          return Fails;
        }
        told := Then(told, Held);
        waiting := waiting + [outgoing];
        return GoesOn;
      }
      told := Then(told, Steered);
      sent := Put(sent, outgoing);
      Accepted(outgoing.lines);
      return GoesOn;
    }

    method TakeLine(line: Line) returns (done: Done)
      modifies this
      ensures AsStep(done, View()) == Launch.TakeLine(config, old(View()), line)
    {
      match line
      case Message(uuid, content) =>
        done := TakeMessage(uuid, content);
      case Stop(launch) =>
        if launch.Some? && launch.value != config.firstSequence {
          return GoesOn;
        }
        if turnId.None? {
          return Ends(Stopped);
        }
        stopping := true;
        told := Then(told, StopTaken);
        var answer := Await();
        return if answer.Answered? then GoesOn else Ends(Stopped);
      case Retire =>
        return if warm && turnId.None? && waiting == [] then Ends(Idled) else GoesOn;
      case _ =>
        return GoesOn;
    }

    method TakeTurnCompleted(completed: string, status: TurnStatus) returns (done: Done)
      modifies this
      ensures AsStep(done, View()) == Launch.TakeTurnCompleted(config, old(View()), completed, status)
      decreases Pending(View()), 2
    {
      if turnId != Some(completed) {
        return GoesOn;
      }
      turnId := None;
      told := Then(told, TurnOver);
      ghost var over := View();
      PausePends(over);
      var _ := Await();
      assert View() == Pause(over);
      if stopping {
        return Ends(Stopped);
      }
      if status == Failed || status == Interrupted {
        return Ends(FailedLaunch);
      }
      done := StartAgain();
    }

    /**
     * A turn over with the launch to go on: a turn of all the messages unanswered, or the drain where there are none.
     */
    method StartAgain() returns (done: Done)
      modifies this
      ensures var cleared, unanswered := old(View()).(sent := [], waiting := []), old(sent + waiting);
              AsStep(done, View())
              == if unanswered != [] then Launch.StartTurn(cleared, unanswered) else Drain(config, cleared)
      decreases Pending(View()), 1
    {
      var unanswered := sent + waiting;
      sent, waiting := [], [];
      if unanswered != [] {
        done := StartTurn(unanswered);
      } else {
        done := Drained();
      }
    }

    /** A look at the queue, after whatever arrived meanwhile: its first signal, taken off it. */
    method Polled() returns (queued: Option<Signal>)
      modifies this
      ensures var looked := Pause(old(View()));
        if looked.signals == [] then queued == None && View() == looked
        else queued == Some(looked.signals[0]) && View() == looked.(signals := looked.signals[1..])
    {
      var _ := Await();
      if signals == [] {
        return None;
      }
      queued := Some(signals[0]);
      signals := signals[1..];
    }

    /** Acts on what is queued behind a completion, and calls the launch over where nothing more is. */
    method Drained() returns (done: Done)
      modifies this
      ensures AsStep(done, View()) == Drain(config, old(View()))
      decreases Pending(View()), 0
    {
      while true
        invariant Drain(config, View()) == Drain(config, old(View()))
        invariant Pending(View()) <= Pending(old(View()))
        decreases Pending(View())
      {
        PausePends(View());
        var queued := Polled();
        if queued.None? {
          break;
        }
        done := TakeSignal(queued.value);
        if done != GoesOn {
          return;
        }
      }
      told := Then(told, FoundEmpty);
      done := CallOver();
    }

    method CallOver() returns (done: Done)
      modifies this
      ensures AsStep(done, View()) == Launch.CallOver(config, old(View()))
    {
      if turnId.Some? {
        return GoesOn;
      }
      if !config.warm {
        return Ends(TurnEnded);
      }
      warm := true;
      told := Then(told, SaidIdle);
      return GoesOn;
    }

    method TakeSignal(signal: Signal) returns (done: Done)
      modifies this
      ensures AsStep(done, View()) == Launch.TakeSignal(config, old(View()), signal)
      decreases Pending(View()), 3
    {
      match signal
      case LineRead(line) =>
        done := TakeLine(line);
      case InputClosed =>
        return if turnId.None? && waiting == [] then Ends(ClosedInput) else GoesOn;
      case MessageTaken(clientId) =>
        var entry := Under(sent, clientId);
        if entry.Some? {
          told := Then(told, Taken(entry.value.lines));
          sent := Without(sent, clientId);
        }
        return GoesOn;
      case TurnCompleted(completed, status) =>
        done := TakeTurnCompleted(completed, status);
      case Exited =>
        return Ends(FailedLaunch);
      case Undelivered =>
        return Ends(FailedLaunch);
    }

    /** The controller's loop, over all the script brings: why the launch ended, or that it runs on. */
    method Run() returns (end: Option<End>)
      modifies this
      ensures Launch.Run(config, old(View())) == if end.Some? then Finished(View(), end.value) else Running(View())
    {
      while signals != [] || script != []
        invariant Launch.Run(config, View()) == Launch.Run(config, old(View()))
        decreases Pending(View()) + |script|
      {
        if signals == [] {
          PausePends(View());
          var lapsed := script[0].arrivals == [] && warm && script[0].lapsed;
          var _ := Await();
          if lapsed {
            return Some(Idled);
          }
        } else {
          var signal := signals[0];
          signals := signals[1..];
          var done := TakeSignal(signal);
          match done
          case GoesOn =>
          case Ends(why) => return Some(why);
          case Fails => return Some(FailedLaunch);
        }
      }
      return None;
    }
  }
}
