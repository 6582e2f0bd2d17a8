/**
 * What of a launch's signals is acted on: every message line read, in order and as it came, and no exit, no undelivered
 * post and no stop of its own passed over.
 */
module LaunchReads {
  import opened Basics
  import opened Launch
  import opened LaunchHistory
  import opened LaunchProofs

  /** A message line as it came. */
  datatype Ask = Ask(uuid: Option<string>, content: seq<Block>)

  /** What a state holds to act on and has acted on: its message lines, its failures, its stops. */
  datatype Books = Books(asks: seq<Ask>, failures: nat, stops: nat)

  function Plus(a: Books, b: Books): Books {
    Books(a.asks + b.asks, a.failures + b.failures, a.stops + b.stops)
  }

  const NONE := Books([], 0, 0)

  /** Whether a stop is for this launch: it names none, or this one. */
  function ForThis(c: Config, launch: Option<nat>): nat {
    if launch == None || launch == Some(c.firstSequence) then 1 else 0
  }

  /** A signal's own: a stop counts where it is for this launch. */
  function OfSignal(c: Config, signal: Signal): Books {
    match signal
    case LineRead(Message(uuid, content)) => Books([Ask(uuid, content)], 0, 0)
    case LineRead(Stop(launch)) => Books([], 0, ForThis(c, launch))
    case Exited => Books([], 1, 0)
    case Undelivered => Books([], 1, 0)
    case _ => NONE
  }

  function OfSignals(c: Config, signals: seq<Signal>): Books {
    if signals == [] then NONE else Plus(OfSignal(c, signals[0]), OfSignals(c, signals[1..]))
  }

  function OfScript(c: Config, script: seq<Moment>): Books {
    if script == [] then NONE else Plus(OfSignals(c, script[0].arrivals), OfScript(c, script[1..]))
  }

  function UuidOf(id: Id): Option<string> {
    if id.Given? then Some(id.uuid) else None
  }

  function AndRead(b: Books, ask: Ask): Books {
    b.(asks := b.asks + [ask])
  }

  function AndStop(b: Books): Books {
    b.(stops := b.stops + 1)
  }

  /** What a history says was acted on: the lines read, and the stops taken. */
  function OfHistory(h: History): Books {
    match h
    case Nothing => NONE
    case Then(before, Read(line, content)) => AndRead(OfHistory(before), Ask(UuidOf(line), content))
    case Then(before, StopTaken) => AndStop(OfHistory(before))
    case Then(before, _) => OfHistory(before)
  }

  /** What a state still holds to act on. */
  function Ahead(c: Config, s: State): Books {
    Plus(OfSignals(c, s.signals), OfScript(c, s.script))
  }

  function OfState(c: Config, s: State): Books {
    Plus(OfHistory(s.told), Ahead(c, s))
  }

  lemma PlusAssoc(a: Books, b: Books, d: Books)
    ensures Plus(a, Plus(b, d)) == Plus(Plus(a, b), d)
  {
    Regrouped(a.asks, b.asks, d.asks);
  }

  lemma PlusNone(a: Books)
    ensures Plus(a, NONE) == a && Plus(NONE, a) == a
  {
    assert a.asks + [] == a.asks && [] + a.asks == a.asks;
  }

  lemma {:induction false} SignalsConcat(c: Config, a: seq<Signal>, b: seq<Signal>)
    ensures OfSignals(c, a + b) == Plus(OfSignals(c, a), OfSignals(c, b))
  {
    if a == [] {
      assert a + b == b;
      PlusNone(OfSignals(c, b));
    } else {
      assert (a + b)[0] == a[0] && (a + b)[1..] == a[1..] + b;
      SignalsConcat(c, a[1..], b);
      PlusAssoc(OfSignal(c, a[0]), OfSignals(c, a[1..]), OfSignals(c, b));
    }
  }

  lemma PauseBooks(c: Config, s: State)
    ensures OfState(c, Pause(s)) == OfState(c, s)
  {
    if s.script != [] {
      var came := OfSignals(c, s.script[0].arrivals);
      SignalsConcat(c, s.signals, s.script[0].arrivals);
      PlusAssoc(OfSignals(c, s.signals), came, OfScript(c, s.script[1..]));
    }
  }

  /** Nothing is acted on between the two. */
  predicate Quiet(h: History, h': History) {
    OfHistory(h') == OfHistory(h)
  }

  lemma {:induction false} AcceptingQuiet(s: State, lines: seq<Id>)
    ensures Quiet(s.told, Accepting(s, lines).told)
    decreases lines
  {
    if lines != [] {
      if lines[0] in s.accepted {
        AcceptingQuiet(s, lines[1..]);
      } else {
        AcceptingQuiet(Tell(s, SaidAccepted(lines[0])).(accepted := s.accepted + {lines[0]}), lines[1..]);
      }
    }
  }

  /** A step that acts on nothing but what it says it does. */
  predicate Same(c: Config, s: State, t: State) {
    OfState(c, t) == OfState(c, s)
  }

  lemma SameAs(c: Config, s: State, t: State)
    requires Quiet(s.told, t.told) && t.signals == s.signals && t.script == s.script
    ensures Same(c, s, t)
  {
  }

  lemma BeginTurnBooks(c: Config, p: State, o: Outgoing, turn: string)
    ensures Same(c, p, BeginTurn(p, o, turn))
  {
    var begun := Tell(p, Began(turn)).(turnId := Some(turn), sent := Put(p.sent, o));
    AcceptingQuiet(begun, o.lines);
    AcceptingPends(begun, o.lines);
    SameAs(c, p, BeginTurn(p, o, turn));
  }

  lemma AskBooks(c: Config, s: State, asked: State)
    requires Quiet(s.told, asked.told) && asked.signals == s.signals && asked.script == s.script
    ensures Same(c, s, Pause(asked))
  {
    SameAs(c, s, asked);
    PauseBooks(c, asked);
  }

  lemma StartTurnIs(s: State, messages: seq<Outgoing>)
    ensures var p := Pause(AskTurn(s, messages));
      StartTurn(s, messages).s == p
      || exists turn :: StartTurn(s, messages).s == BeginTurn(p, Merged(messages, s.minted), turn)
    ensures Quiet(s.told, AskTurn(s, messages).told)
    ensures AskTurn(s, messages).signals == s.signals && AskTurn(s, messages).script == s.script
  {
    var asked := AskTurn(s, messages);
    if AnswerTo(asked).Answered? && AnswerTo(asked).turn.Some? {
      assert StartTurn(s, messages).s
        == BeginTurn(Pause(asked), Merged(messages, s.minted), AnswerTo(asked).turn.value);
    }
  }

  lemma StartTurnBooks(c: Config, s: State, messages: seq<Outgoing>)
    ensures Same(c, s, StartTurn(s, messages).s)
  {
    var asked := AskTurn(s, messages);
    StartTurnIs(s, messages);
    AskBooks(c, s, asked);
    if turn :| StartTurn(s, messages).s == BeginTurn(Pause(asked), Merged(messages, s.minted), turn) {
      BeginTurnBooks(c, Pause(asked), Merged(messages, s.minted), turn);
    }
  }

  lemma SteerTakenBooks(c: Config, p: State, o: Outgoing)
    ensures Same(c, p, SteerTaken(p, o))
  {
    var steered := Tell(p, Steered).(sent := Put(p.sent, o));
    AcceptingQuiet(steered, o.lines);
    AcceptingPends(steered, o.lines);
    SameAs(c, p, SteerTaken(p, o));
  }

  function HeldAs(p: State, waiting: seq<Outgoing>): State {
    Tell(p, Held).(waiting := waiting)
  }

  lemma SteerIs(s: State, o: Outgoing)
    ensures var p := Pause(Tell(s, AskedSteer(o)));
      Steer(s, o).s == p || Steer(s, o).s == SteerTaken(p, o) || Steer(s, o).s == HeldAs(p, s.waiting + [o])
    ensures Quiet(s.told, Tell(s, AskedSteer(o)).told)
  {
  }

  lemma SteerBooks(c: Config, s: State, o: Outgoing)
    ensures Same(c, s, Steer(s, o).s)
  {
    var asked := Tell(s, AskedSteer(o));
    SteerIs(s, o);
    AskBooks(c, s, asked);
    SteerTakenBooks(c, Pause(asked), o);
    SameAs(c, Pause(asked), HeldAs(Pause(asked), s.waiting + [o]));
  }

  /** What a signal acted on may leave of the books it was counted in. */
  predicate Balanced(whole: Books, left: Books, r: Step) {
    && left.asks == whole.asks
    && (left.failures == whole.failures || (r.Ended? && r.end == FailedLaunch && left.failures + 1 == whole.failures))
    && (left.stops == whole.stops || (r.Ended? && r.end == Stopped && left.stops + 1 == whole.stops))
  }

  /** What a signal and a state hold between them. */
  function With(c: Config, s: State, signal: Signal): Books {
    Plus(OfHistory(s.told), Plus(OfSignal(c, signal), Ahead(c, s)))
  }

  lemma PoppedBooks(c: Config, s: State)
    requires s.signals != []
    ensures With(c, s.(signals := s.signals[1..]), s.signals[0]) == OfState(c, s)
  {
    PlusAssoc(OfSignal(c, s.signals[0]), OfSignals(c, s.signals[1..]), OfScript(c, s.script));
  }

  lemma LineBooks(c: Config, s: State, line: Line)
    ensures Balanced(With(c, s, LineRead(line)), OfState(c, TakeLine(c, s, line).s), TakeLine(c, s, line))
  {
    match line
    case Message(uuid, content) => MessageBooks(c, s, uuid, content);
    case Stop(launch) => StopBooks(c, s, launch);
    case _ => WithMore(c, s, LineRead(line));
  }

  lemma AskFirst(a: Books, ask: Ask, d: Books)
    ensures Plus(a, Plus(Books([ask], 0, 0), d)) == Plus(AndRead(a, ask), d)
  {
    Regrouped(a.asks, [ask], d.asks);
  }

  lemma MessageBooks(c: Config, s: State, uuid: Option<string>, content: seq<Block>)
    ensures OfState(c, TakeLine(c, s, Message(uuid, content)).s) == With(c, s, LineRead(Message(uuid, content)))
  {
    var read, o := ReadMessage(s, uuid, content), Alone(MessageId(s, uuid), content);
    AskFirst(OfHistory(s.told), Ask(uuid, content), Ahead(c, s));
    assert UuidOf(MessageId(s, uuid)) == uuid;
    assert OfState(c, read) == With(c, s, LineRead(Message(uuid, content)));
    if s.turnId.None? {
      StartTurnBooks(c, read, [o]);
    } else {
      SteerBooks(c, read, o);
    }
  }

  lemma OneMore(a: Books, b: Books, d: Books)
    requires b.asks == []
    ensures var whole := Plus(a, d);
      Plus(a, Plus(b, d)) == Books(whole.asks, whole.failures + b.failures, whole.stops + b.stops)
  {
    assert [] + d.asks == d.asks;
  }

  lemma WithMore(c: Config, s: State, signal: Signal)
    requires OfSignal(c, signal).asks == []
    ensures var more, left := OfSignal(c, signal), OfState(c, s);
      With(c, s, signal) == Books(left.asks, left.failures + more.failures, left.stops + more.stops)
  {
    OneMore(OfHistory(s.told), OfSignal(c, signal), Ahead(c, s));
  }

  function Stopping(s: State): State {
    Tell(s, StopTaken).(stopping := true)
  }

  lemma StopPlus(a: Books, d: Books)
    ensures Plus(AndStop(a), d) == AndStop(Plus(a, d))
  {
  }

  lemma StoppingBooks(c: Config, s: State)
    ensures OfState(c, Stopping(s)) == AndStop(OfState(c, s))
  {
    StopPlus(OfHistory(s.told), Ahead(c, s));
    assert Ahead(c, Stopping(s)) == Ahead(c, s);
  }

  lemma StopIs(c: Config, s: State, launch: Option<nat>)
    ensures var r := TakeLine(c, s, Stop(launch));
      if ForThis(c, launch) == 0 then r == On(s)
      else if s.turnId.None? then r == Ended(s, Stopped)
      else r == On(Pause(Stopping(s))) || r == Ended(Pause(Stopping(s)), Stopped)
  {
  }

  lemma StopBooks(c: Config, s: State, launch: Option<nat>)
    ensures var r := TakeLine(c, s, Stop(launch)); Balanced(With(c, s, LineRead(Stop(launch))), OfState(c, r.s), r)
  {
    WithMore(c, s, LineRead(Stop(launch)));
    StopIs(c, s, launch);
    StoppingBooks(c, s);
    PauseBooks(c, Stopping(s));
  }

  lemma CompletedBooks(c: Config, s: State, turnId: string, status: TurnStatus)
    ensures var r := TakeTurnCompleted(c, s, turnId, status); Balanced(OfState(c, s), OfState(c, r.s), r)
    decreases Pending(s), 1
  {
    if s.turnId == Some(turnId) {
      var told := Tell(s, TurnOver).(turnId := None);
      SameAs(c, s, told);
      PauseBooks(c, told);
      PausePends(told);
      if !s.stopping && status != Failed && status != Interrupted {
        var cleared := Pause(told).(sent := [], waiting := []);
        SameAs(c, Pause(told), cleared);
        if s.sent + s.waiting != [] {
          StartTurnBooks(c, cleared, s.sent + s.waiting);
        } else {
          DrainBooks(c, cleared);
        }
      }
    }
  }

  lemma DrainBooks(c: Config, s: State)
    ensures Balanced(OfState(c, s), OfState(c, Drain(c, s).s), Drain(c, s))
    decreases Pending(s), 0
  {
    var looked := Pause(s);
    PauseBooks(c, s);
    PausePends(s);
    if looked.signals == [] {
      CallOverBooks(c, looked);
    } else {
      var popped := looked.(signals := looked.signals[1..]);
      PoppedBooks(c, looked);
      SignalBooks(c, popped, looked.signals[0]);
      var done := TakeSignal(c, popped, looked.signals[0]);
      if done.On? {
        DrainBooks(c, done.s);
        assert Drain(c, s) == Drain(c, done.s);
      } else {
        assert Drain(c, s) == done;
      }
    }
  }

  lemma CallOverBooks(c: Config, s: State)
    ensures var r := CallOver(c, Tell(s, FoundEmpty)); Balanced(OfState(c, s), OfState(c, r.s), r)
  {
    var found := Tell(s, FoundEmpty);
    SameAs(c, s, found);
    SameAs(c, found, CallOver(c, found).s);
  }

  lemma TakenIs(c: Config, s: State, clientId: Id)
    ensures var r := TakeSignal(c, s, MessageTaken(clientId));
      r.On? && r.s.signals == s.signals && r.s.script == s.script && Quiet(s.told, r.s.told)
  {
  }

  /** Where nothing of a signal's is counted, and nothing is acted on, the books are as they were. */
  lemma SameWith(c: Config, s: State, signal: Signal, t: State)
    requires OfSignal(c, signal) == NONE
    requires t.signals == s.signals && t.script == s.script && Quiet(s.told, t.told)
    ensures OfState(c, t) == With(c, s, signal)
  {
    WithMore(c, s, signal);
    SameAs(c, s, t);
  }

  lemma TakenBooks(c: Config, s: State, clientId: Id)
    ensures TakeSignal(c, s, MessageTaken(clientId)).On?
    ensures OfState(c, TakeSignal(c, s, MessageTaken(clientId)).s) == With(c, s, MessageTaken(clientId))
  {
    TakenIs(c, s, clientId);
    SameWith(c, s, MessageTaken(clientId), TakeSignal(c, s, MessageTaken(clientId)).s);
  }

  lemma OtherIs(c: Config, s: State, signal: Signal)
    requires signal.InputClosed? || signal.Exited? || signal.Undelivered?
    ensures var r := TakeSignal(c, s, signal); r.s == s && (!signal.InputClosed? ==> r == Ended(s, FailedLaunch))
  {
  }

  /** Any signal but these changes the books by itself alone. */
  lemma OtherBooks(c: Config, s: State, signal: Signal)
    requires signal.InputClosed? || signal.Exited? || signal.Undelivered?
    ensures Balanced(With(c, s, signal), OfState(c, TakeSignal(c, s, signal).s), TakeSignal(c, s, signal))
  {
    WithMore(c, s, signal);
    OtherIs(c, s, signal);
  }

  lemma SignalBooks(c: Config, s: State, signal: Signal)
    ensures Balanced(With(c, s, signal), OfState(c, TakeSignal(c, s, signal).s), TakeSignal(c, s, signal))
    decreases Pending(s), 2
  {
    match signal
    case LineRead(line) => LineBooks(c, s, line);
    case TurnCompleted(turnId, status) =>
      WithMore(c, s, signal);
      CompletedBooks(c, s, turnId, status);
    case MessageTaken(clientId) => TakenBooks(c, s, clientId);
    case _ => OtherBooks(c, s, signal);
  }

  /** What a run may leave of the books it started with. */
  predicate Accounted(whole: Books, r: Outcome, left: Books) {
    && left.asks == whole.asks
    && (left.failures == whole.failures
        || (r.Finished? && r.end == FailedLaunch && left.failures + 1 == whole.failures))
    && (left.stops == whole.stops || (r.Finished? && r.end == Stopped && left.stops + 1 == whole.stops))
  }

  lemma IterateBooks(c: Config, s: State)
    ensures Accounted(OfState(c, s), Iterate(c, s), OfState(c, Iterate(c, s).s))
  {
    if s.signals != [] {
      PoppedBooks(c, s);
      SignalBooks(c, s.(signals := s.signals[1..]), s.signals[0]);
    } else {
      PauseBooks(c, s);
    }
  }

  lemma StartBooks(c: Config, script: seq<Moment>)
    ensures OfState(c, Start(c, script)) == OfScript(c, script)
  {
    PlusNone(OfScript(c, script));
  }

  lemma {:induction false} RunBooks(c: Config, script: seq<Moment>, n: nat)
    ensures Accounted(OfScript(c, script), After(c, Start(c, script), n), OfState(c, After(c, Start(c, script), n).s))
  {
    if n == 0 {
      StartBooks(c, script);
    } else {
      var r := After(c, Start(c, script), n - 1);
      RunBooks(c, script, n - 1);
      if r.Running? {
        IterateBooks(c, r.s);
        assert After(c, Start(c, script), n) == Iterate(c, r.s);
      } else {
        assert After(c, Start(c, script), n) == r;
      }
    }
  }

  /**
   * At every point of every run, however it ends: the message lines read, then those queued, then those to come, are
   * the script's message lines, each once, in order, with its id and its blocks as it came.
   */
  lemma LinesReadInOrder(c: Config, script: seq<Moment>, n: nat)
    ensures var s := After(c, Start(c, script), n).s;
      OfHistory(s.told).asks + (OfSignals(c, s.signals).asks + OfScript(c, s.script).asks) == OfScript(c, script).asks
  {
    RunBooks(c, script, n);
  }

  lemma {:induction false} HistoryHas(h: History)
    ensures OfHistory(h).failures == 0
  {
    if h.Then? {
      HistoryHas(h.before);
    }
  }

  /**
   * An exit of app-server's or a post undelivered fails the launch when it is acted on: while the launch runs, and
   * where it ends any other way, every one that came stands queued yet or is still to come.
   */
  lemma ExitFails(c: Config, script: seq<Moment>, n: nat)
    ensures var r := After(c, Start(c, script), n);
      var left := OfSignals(c, r.s.signals).failures + OfScript(c, r.s.script).failures;
      && (r.Running? || r.end != FailedLaunch ==> left == OfScript(c, script).failures)
      && left <= OfScript(c, script).failures <= left + 1
  {
    RunBooks(c, script, n);
    HistoryHas(After(c, Start(c, script), n).s.told);
  }

  /**
   * A stop that names no launch, or this one, is taken with a turn running or ends the launch STOPPED; one that names
   * another does neither.
   */
  lemma StopsTaken(c: Config, script: seq<Moment>, n: nat)
    ensures var r := After(c, Start(c, script), n);
      var left := OfSignals(c, r.s.signals).stops + OfScript(c, r.s.script).stops;
      && (r.Running? || r.end != Stopped ==> OfHistory(r.s.told).stops + left == OfScript(c, script).stops)
      && OfHistory(r.s.told).stops + left <= OfScript(c, script).stops <= OfHistory(r.s.told).stops + left + 1
  {
    RunBooks(c, script, n);
  }

  lemma {:induction false} AskedBefore(h: History, before: History, message: Outgoing)
    requires WellTold(h)
    requires Extends(h, Then(before, AskedStart(message))) || Extends(h, Then(before, AskedSteer(message)))
    ensures BlocksIn(message.input) == Some(Contents(before, message.lines))
    ensures forall l :: l in message.lines ==> l in Arrivals(before)
    ensures OfHistory(before).asks <= OfHistory(h).asks
  {
    if h != Then(before, AskedStart(message)) && h != Then(before, AskedSteer(message)) {
      AskedBefore(h.before, before, message);
    }
  }

  lemma {:induction false} ReadAsCame(h: History, line: Id)
    requires line in Arrivals(h)
    ensures Ask(UuidOf(line), ContentOf(h, line)) in OfHistory(h).asks
  {
    if !(h.now.Read? && h.now.line == line) {
      ReadAsCame(h.before, line);
    }
  }

  /**
   * Over every run: whatever a turn is asked to take, started, steered or sent again, says the blocks of the lines it
   * carries, in their order, each line's as the script's message line of that id had them.
   */
  lemma SentAsRead(c: Config, script: seq<Moment>, n: nat, before: History, message: Outgoing)
    requires NoRepeat(ScriptIds(script))
    requires var h := After(c, Start(c, script), n).s.told;
      Extends(h, Then(before, AskedStart(message))) || Extends(h, Then(before, AskedSteer(message)))
    ensures BlocksIn(message.input) == Some(Contents(before, message.lines))
    ensures forall l :: l in message.lines ==> Ask(UuidOf(l), ContentOf(before, l)) in OfScript(c, script).asks
  {
    var s := After(c, Start(c, script), n).s;
    EveryRun(c, script, n);
    AskedBefore(s.told, before, message);
    LinesReadInOrder(c, script, n);
    forall l | l in message.lines ensures Ask(UuidOf(l), ContentOf(before, l)) in OfScript(c, script).asks {
      ReadAsCame(before, l);
      assert Ask(UuidOf(l), ContentOf(before, l)) in OfHistory(s.told).asks;
    }
  }
}
