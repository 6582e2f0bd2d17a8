/**
 * One launch of Codex, as the controller of `packages/agent-runner/src/codex.ts`
 * runs it: the specification of each of its steps, over a state that carries
 * what the world outside may still do as a finite script.
 *
 * The controller waits on the world at fixed points (a request to app-server,
 * the mirroring of the rollout, a look at the signal queue). Each such wait
 * takes one `Moment` of the script: the signals that arrived meanwhile, and
 * the answer, where one was asked for. A script that has run out answers
 * nothing: a request fails as one not answered in time.
 */
module Launch {
  import opened Basics

  /** A line's or message's id: the service's own, or one `randomUUID` made, which no other id equals. */
  datatype Id = Given(uuid: string) | Minted(serial: nat)

  /** The media types a message's image may be of. */
  const MEDIA_TYPES := {"image/png", "image/jpeg", "image/gif", "image/webp"}

  type MediaType = name: string | name in MEDIA_TYPES witness "image/png"

  datatype Block = TextBlock(text: string) | ImageBlock(mediaType: MediaType, data: string)

  datatype UserInput = TextInput(text: string) | ImageInput(url: string)

  /** A message as Codex takes it, under the id Codex echoes, with the lines it carries. */
  datatype Outgoing = Outgoing(clientId: Id, input: seq<UserInput>, lines: seq<Id>)

  datatype Line =
    | Unreadable
    | Message(uuid: Option<string>, content: seq<Block>)
    | Stop(launch: Option<nat>)
    | Retire
    | Warm
    | Settings

  datatype TurnStatus = Completed | Interrupted | Failed | InProgress

  datatype Signal =
    | LineRead(line: Line)
    | InputClosed
    | MessageTaken(clientId: Id)
    | TurnCompleted(turnId: string, status: TurnStatus)
    | Exited
    | Undelivered

  datatype RefusalData = ActiveTurnNotSteerable | OtherRefusal

  /**
   * App-server's answer to a request: an answer with or without a turn in it, or a failure with what it said of itself.
   */
  datatype Answer = Answered(turn: Option<string>) | Refused(code: Option<int>, data: Option<RefusalData>)

  /**
   * One wait on the world: what arrived meanwhile, the answer to the request waited on, and whether a warm launch's
   * window passed.
   */
  datatype Moment = Moment(arrivals: seq<Signal>, answer: Answer, lapsed: bool)

  datatype End = TurnEnded | Stopped | ClosedInput | FailedLaunch | Idled

  /** What can be seen of a launch from outside, in order. */
  datatype Happening =
    | Read(line: Id, content: seq<Block>)
    | AskedStart(message: Outgoing)
    | AskedSteer(message: Outgoing)
    | Began(turnId: string)
    | Steered
    | Held
    | SaidAccepted(line: Id)
    | Taken(lines: seq<Id>)
    | TurnOver
    | StopTaken
    | FoundEmpty
    | SaidIdle

  datatype History = Nothing | Then(before: History, now: Happening)

  /**
   * The launch's config as the controller reads it: whether it stays warm, and the first event number that names it.
   */
  datatype Config = Config(warm: bool, firstSequence: nat)

  datatype State = State(
    signals: seq<Signal>,
    script: seq<Moment>,
    turnId: Option<string>,
    sent: seq<Outgoing>,
    waiting: seq<Outgoing>,
    accepted: set<Id>,
    stopping: bool,
    warm: bool,
    minted: nat,
    told: History)

  /** Where a step leaves the launch: running on, ended for a reason, or failed by a request. */
  datatype Step = On(s: State) | Ended(s: State, end: End) | Threw(s: State)

  datatype Outcome = Running(s: State) | Finished(s: State, end: End)

  // ---- The world ----

  /** The world's signals still to act on: those queued, and those the script has yet to bring. */
  function Arriving(script: seq<Moment>): nat {
    if script == [] then 0 else |script[0].arrivals| + Arriving(script[1..])
  }

  function Pending(s: State): nat {
    |s.signals| + Arriving(s.script)
  }

  /** A wait on the world: the script's next moment, its arrivals queued. */
  function Pause(s: State): State {
    if s.script == [] then s
    else s.(script := s.script[1..], signals := s.signals + s.script[0].arrivals)
  }

  function AnswerTo(s: State): Answer {
    if s.script == [] then Refused(None, None) else s.script[0].answer
  }

  function Tell(s: State, now: Happening): State {
    s.(told := Then(s.told, now))
  }

  // ---- Messages ----

  const INVALID_REQUEST := -32600

  /** Whether a steer app-server refused waits for the next turn. */
  predicate SteerWaits(code: Option<int>, data: Option<RefusalData>) {
    match data
    case None => code == Some(INVALID_REQUEST)
    case Some(read) => read == ActiveTurnNotSteerable
  }

  function UserInputs(content: seq<Block>): seq<UserInput> {
    if content == [] then []
    else
      [match content[0]
       case TextBlock(text) => TextInput(text)
       case ImageBlock(mediaType, data) => ImageInput("data:" + mediaType + ";base64," + data)]
      + UserInputs(content[1..])
  }

  function LinesOf(messages: seq<Outgoing>): seq<Id> {
    if messages == [] then [] else messages[0].lines + LinesOf(messages[1..])
  }

  function InputsOf(messages: seq<Outgoing>): seq<UserInput> {
    if messages == [] then [] else messages[0].input + InputsOf(messages[1..])
  }

  /** The messages a turn starts with, merged into one under an id of its own where they are not one already. */
  function Merged(messages: seq<Outgoing>, minted: nat): Outgoing {
    if |messages| == 1 then messages[0]
    else Outgoing(Minted(minted), InputsOf(messages), LinesOf(messages))
  }

  /** A map's `set`: a key already there keeps its place. */
  function Put(sent: seq<Outgoing>, message: Outgoing): seq<Outgoing> {
    if sent == [] then [message]
    else if sent[0].clientId == message.clientId then [message] + sent[1..]
    else [sent[0]] + Put(sent[1..], message)
  }

  /** A map's `delete`. */
  function Without(sent: seq<Outgoing>, clientId: Id): seq<Outgoing> {
    if sent == [] then []
    else if sent[0].clientId == clientId then sent[1..]
    else [sent[0]] + Without(sent[1..], clientId)
  }

  function Under(sent: seq<Outgoing>, clientId: Id): Option<Outgoing> {
    if sent == [] then None
    else if sent[0].clientId == clientId then Some(sent[0])
    else Under(sent[1..], clientId)
  }

  /** ACCEPTED said of each line a message carries that it was not said of before. */
  function Accepting(s: State, lines: seq<Id>): State
    decreases lines
  {
    if lines == [] then s
    else if lines[0] in s.accepted then Accepting(s, lines[1..])
    else Accepting(Tell(s, SaidAccepted(lines[0])).(accepted := s.accepted + {lines[0]}), lines[1..])
  }

  // ---- The controller's steps ----

  /** A turn asked for with the messages given. */
  function AskTurn(s: State, messages: seq<Outgoing>): State {
    Tell(s.(minted := s.minted + if |messages| == 1 then 0 else 1), AskedStart(Merged(messages, s.minted)))
  }

  /** The turn app-server named begun, the message it took recorded as sent and its lines said accepted. */
  function BeginTurn(s: State, outgoing: Outgoing, turn: string): State {
    Accepting(Tell(s, Began(turn)).(turnId := Some(turn), sent := Put(s.sent, outgoing)), outgoing.lines)
  }

  function StartTurn(s: State, messages: seq<Outgoing>): Step {
    var asked := AskTurn(s, messages);
    match AnswerTo(asked)
    case Answered(Some(turn)) => On(BeginTurn(Pause(asked), Merged(messages, s.minted), turn))
    case _ => Threw(Pause(asked))
  }

  /** A steer the running turn took. */
  function SteerTaken(s: State, outgoing: Outgoing): State {
    Accepting(Tell(s, Steered).(sent := Put(s.sent, outgoing)), outgoing.lines)
  }

  function Steer(s: State, outgoing: Outgoing): Step {
    var asked := Tell(s, AskedSteer(outgoing));
    match AnswerTo(asked)
    case Answered(_) => On(SteerTaken(Pause(asked), outgoing))
    case Refused(code, data) =>
      if SteerWaits(code, data) then On(Tell(Pause(asked), Held).(waiting := s.waiting + [outgoing]))
      else Threw(Pause(asked))
  }

  /** The id a message line goes under: the service's own for it, or one of ours. */
  function MessageId(s: State, uuid: Option<string>): Id {
    if uuid.Some? then Given(uuid.value) else Minted(s.minted)
  }

  /** A message line read: out of warm. */
  function ReadMessage(s: State, uuid: Option<string>, content: seq<Block>): State {
    Tell(s, Read(MessageId(s, uuid), content))
    .(warm := false, minted := s.minted + if uuid.Some? then 0 else 1)
  }

  /** A message line as it goes alone: under its own id, carrying itself. */
  function Alone(id: Id, content: seq<Block>): Outgoing {
    Outgoing(id, UserInputs(content), [id])
  }

  function TakeLine(c: Config, s: State, line: Line): Step {
    match line
    case Message(uuid, content) =>
      var outgoing := Alone(MessageId(s, uuid), content);
      var read := ReadMessage(s, uuid, content);
      if s.turnId.None? then StartTurn(read, [outgoing]) else Steer(read, outgoing)
    case Stop(launch) =>
      if launch.Some? && launch.value != c.firstSequence then On(s)
      else if s.turnId.None? then Ended(s, Stopped)
      else
        var asked := Tell(s, StopTaken).(stopping := true);
        if AnswerTo(asked).Answered? then On(Pause(asked)) else Ended(Pause(asked), Stopped)
    case Retire =>
      if s.warm && s.turnId.None? && s.waiting == [] then Ended(s, Idled) else On(s)
    case _ => On(s)
  }

  function TakeTurnCompleted(c: Config, s: State, turnId: string, status: TurnStatus): (r: Step)
    ensures Pending(r.s) <= Pending(s) && |r.s.script| <= |s.script|
    decreases Pending(s), 1
  {
    if s.turnId != Some(turnId) then On(s)
    else
      var mirrored := Pause(Tell(s, TurnOver).(turnId := None));
      PausePends(Tell(s, TurnOver).(turnId := None));
      if s.stopping then Ended(mirrored, Stopped)
      else if status == Failed || status == Interrupted then Ended(mirrored, FailedLaunch)
      else
        var cleared := mirrored.(sent := [], waiting := []);
        if s.sent + s.waiting != [] then
          StartTurnPends(cleared, s.sent + s.waiting);
          StartTurn(cleared, s.sent + s.waiting)
        else
          Drain(c, cleared)
  }

  /** What is still queued behind a completion acted on, before the launch is called over. */
  function Drain(c: Config, s: State): (r: Step)
    ensures Pending(r.s) <= Pending(s) && |r.s.script| <= |s.script|
    decreases Pending(s), 0
  {
    var looked := Pause(s);
    PausePends(s);
    if looked.signals == [] then
      CallOver(c, Tell(looked, FoundEmpty))
    else
      var done := TakeSignal(c, looked.(signals := looked.signals[1..]), looked.signals[0]);
      if done.On? then Drain(c, done.s) else done
  }

  /** The queue found empty: the launch goes on with a turn begun meanwhile, ends, or stays warm. */
  function CallOver(c: Config, s: State): Step {
    if s.turnId.Some? then On(s)
    else if !c.warm then Ended(s, TurnEnded)
    else On(Tell(s, SaidIdle).(warm := true))
  }

  function TakeSignal(c: Config, s: State, signal: Signal): (r: Step)
    ensures Pending(r.s) <= Pending(s) && |r.s.script| <= |s.script|
    decreases Pending(s), 2
  {
    match signal
    case LineRead(line) =>
      TakeLinePends(c, s, line);
      TakeLine(c, s, line)
    case InputClosed =>
      if s.turnId.None? && s.waiting == [] then Ended(s, ClosedInput) else On(s)
    case MessageTaken(clientId) =>
      var entry := Under(s.sent, clientId);
      if entry.None? then On(s)
      else On(Tell(s, Taken(entry.value.lines)).(sent := Without(s.sent, clientId)))
    case TurnCompleted(turnId, status) => TakeTurnCompleted(c, s, turnId, status)
    case Exited => Ended(s, FailedLaunch)
    case Undelivered => Ended(s, FailedLaunch)
  }

  /**
   * One turn of the controller's loop: the next signal taken and acted on, or waited for, a warm launch at most its
   * window.
   */
  function Iterate(c: Config, s: State): (r: Outcome)
    ensures r.Running? && (s.signals != [] || s.script != []) ==>
              Pending(r.s) + |r.s.script| < Pending(s) + |s.script|
  {
    if s.signals != [] then
      var done := TakeSignal(c, s.(signals := s.signals[1..]), s.signals[0]);
      if done.On? then Running(done.s)
      else Finished(done.s, if done.Ended? then done.end else FailedLaunch)
    else
      PausePends(s);
      if s.script != [] && s.script[0].arrivals == [] && s.warm && s.script[0].lapsed then Finished(Pause(s), Idled)
      else Running(Pause(s))
  }

  /** The launch after `n` turns of the loop, or where it finished before. */
  function After(c: Config, s: State, n: nat): Outcome {
    if n == 0 then Running(s)
    else
      var r := After(c, s, n - 1);
      if r.Running? then Iterate(c, r.s) else r
  }

  /** The controller's loop, over all the script brings. */
  function Run(c: Config, s: State): Outcome
    decreases Pending(s) + |s.script|
  {
    if s.signals == [] && s.script == [] then Running(s)
    else
      var r := Iterate(c, s);
      if r.Running? then Run(c, r.s) else r
  }

  /** The state a launch's controller starts from. */
  function Start(c: Config, script: seq<Moment>): State {
    State([], script, None, [], [], {}, false, c.warm, 0, Nothing)
  }

  // ---- What a step may take from the world ----

  lemma PausePends(s: State)
    ensures Pending(Pause(s)) == Pending(s) && |Pause(s).script| <= |s.script|
    ensures s.script != [] ==> |Pause(s).script| < |s.script|
  {
  }

  lemma {:induction false} AcceptingPends(s: State, lines: seq<Id>)
    ensures Accepting(s, lines) == s.(accepted := Accepting(s, lines).accepted, told := Accepting(s, lines).told)
    decreases lines
  {
    if lines != [] {
      if lines[0] in s.accepted {
        AcceptingPends(s, lines[1..]);
      } else {
        AcceptingPends(Tell(s, SaidAccepted(lines[0])).(accepted := s.accepted + {lines[0]}), lines[1..]);
      }
    }
  }

  lemma StartTurnPends(s: State, messages: seq<Outgoing>)
    ensures var r := StartTurn(s, messages); Pending(r.s) <= Pending(s) && |r.s.script| <= |s.script|
  {
    var asked := AskTurn(s, messages);
    PausePends(asked);
    match AnswerTo(asked)
    case Answered(Some(turn)) =>
      var outgoing := Merged(messages, s.minted);
      AcceptingPends(Tell(Pause(asked), Began(turn)).(turnId := Some(turn), sent := Put(Pause(asked).sent, outgoing)),
                     outgoing.lines);
    case _ =>
  }

  lemma SteerPends(s: State, outgoing: Outgoing)
    ensures var r := Steer(s, outgoing); Pending(r.s) <= Pending(s) && |r.s.script| <= |s.script|
  {
    var asked := Tell(s, AskedSteer(outgoing));
    PausePends(asked);
    AcceptingPends(Tell(Pause(asked), Steered).(sent := Put(Pause(asked).sent, outgoing)), outgoing.lines);
  }

  lemma TakeLinePends(c: Config, s: State, line: Line)
    ensures var r := TakeLine(c, s, line); Pending(r.s) <= Pending(s) && |r.s.script| <= |s.script|
  {
    match line
    case Message(uuid, content) =>
      var outgoing, read := Alone(MessageId(s, uuid), content), ReadMessage(s, uuid, content);
      assert Pending(read) == Pending(s);
      if s.turnId.None? {
        StartTurnPends(read, [outgoing]);
      } else {
        SteerPends(read, outgoing);
      }
    case Stop(_) =>
      PausePends(Tell(s, StopTaken).(stopping := true));
    case _ =>
  }
}
