/**
 * What a launch's history says, read without the launch's state: which lines
 * were read, accepted and taken, which turn runs, and what makes the whole
 * history one the service can rely on (`WellTold`).
 */
module LaunchHistory {
  import opened Basics
  import opened Launch
  import Cutting

  /** The message lines read, in the order they were. */
  function Arrivals(h: History): seq<Id> {
    match h
    case Nothing => []
    case Then(before, Read(line, _)) => Arrivals(before) + [line]
    case Then(before, _) => Arrivals(before)
  }

  /** The lines of every message app-server reported a turn took, each as often as it was. */
  function TakenLines(h: History): multiset<Id> {
    match h
    case Nothing => multiset{}
    case Then(before, Taken(lines)) => TakenLines(before) + multiset(lines)
    case Then(before, _) => TakenLines(before)
  }

  function AcceptedLines(h: History): set<Id> {
    match h
    case Nothing => {}
    case Then(before, SaidAccepted(line)) => AcceptedLines(before) + {line}
    case Then(before, _) => AcceptedLines(before)
  }

  function RunningTurn(h: History): Option<string> {
    match h
    case Nothing => None
    case Then(_, Began(turnId)) => Some(turnId)
    case Then(_, TurnOver) => None
    case Then(before, _) => RunningTurn(before)
  }

  predicate StopSeen(h: History) {
    h.Then? && (h.now.StopTaken? || StopSeen(h.before))
  }

  /** The blocks a line was read with. */
  function ContentOf(h: History, line: Id): seq<Block> {
    match h
    case Nothing => []
    case Then(before, Read(read, content)) => if read == line then content else ContentOf(before, line)
    case Then(before, _) => ContentOf(before, line)
  }

  /** The blocks of lines, end to end. */
  function Contents(h: History, lines: seq<Id>): seq<Block> {
    if lines == [] then [] else ContentOf(h, lines[0]) + Contents(h, lines[1..])
  }

  // ---- What Codex is sent, read back ----

  const DATA := "data:"
  const BASE64 := ";base64,"

  /** A data URL's image: its media type up to the first `;`, and its base64. */
  function ImageIn(url: string): Option<Block> {
    if !(DATA <= url) then None
    else
      var rest := url[|DATA|..];
      var i := Cutting.FirstCut(rest, ';');
      if rest[..i] !in MEDIA_TYPES || !(BASE64 <= rest[i..]) then None
      else Some(ImageBlock(rest[..i], rest[i + |BASE64|..]))
  }

  /** The blocks an input says: text as text, and an image as its data URL spells it. */
  function BlocksIn(input: seq<UserInput>): Option<seq<Block>> {
    if input == [] then Some([])
    else
      var first := if input[0].TextInput? then Some(TextBlock(input[0].text)) else ImageIn(input[0].url);
      var rest := BlocksIn(input[1..]);
      if first.Some? && rest.Some? then Some([first.value] + rest.value) else None
  }

  lemma MediaTypeCut(mediaType: MediaType, rest: string)
    ensures Cutting.FirstCut(mediaType + BASE64 + rest, ';') == |mediaType|
  {
    assert ';' !in mediaType;
    var text := mediaType + BASE64 + rest;
    assert text[..|mediaType|] == mediaType && text[|mediaType|] == ';';
    Cutting.UniqueCut(text, ';', |mediaType|);
  }

  lemma ImageReadsBack(mediaType: MediaType, data: string)
    ensures ImageIn(DATA + (mediaType + BASE64 + data)) == Some(ImageBlock(mediaType, data))
  {
    var rest := mediaType + BASE64 + data;
    assert (DATA + rest)[|DATA|..] == rest;
    MediaTypeCut(mediaType, data);
    assert rest[..|mediaType|] == mediaType && rest[|mediaType|..] == BASE64 + data;
    assert rest[|mediaType| + |BASE64|..] == data;
  }

  lemma ImageSpelt(mediaType: string, data: string)
    ensures "data:" + mediaType + ";base64," + data == DATA + (mediaType + BASE64 + data)
  {
  }

  /** What Codex is sent of a message says the message's blocks, each as it was and in order. */
  lemma {:induction false} InputReadsBack(content: seq<Block>)
    ensures BlocksIn(UserInputs(content)) == Some(content)
  {
    if content != [] {
      InputReadsBack(content[1..]);
      assert UserInputs(content)[1..] == UserInputs(content[1..]);
      if content[0].ImageBlock? {
        ImageSpelt(content[0].mediaType, content[0].data);
        ImageReadsBack(content[0].mediaType, content[0].data);
      }
      assert content == [content[0]] + content[1..];
    }
  }

  lemma {:induction false} BlocksConcat(a: seq<UserInput>, b: seq<UserInput>)
    requires BlocksIn(a).Some? && BlocksIn(b).Some?
    ensures BlocksIn(a + b) == Some(BlocksIn(a).value + BlocksIn(b).value)
  {
    if a == [] {
      assert a + b == b;
      assert [] + BlocksIn(b).value == BlocksIn(b).value;
    } else {
      assert (a + b)[0] == a[0] && (a + b)[1..] == a[1..] + b;
      BlocksConcat(a[1..], b);
      Regrouped([BlocksIn(a).value[0]], BlocksIn(a[1..]).value, BlocksIn(b).value);
    }
  }

  /** A message says the blocks of the lines it carries, end to end. */
  predicate SaysLines(h: History, message: Outgoing) {
    BlocksIn(message.input) == Some(Contents(h, message.lines))
  }

  /** The lines a steer was last asked with. */
  function AskedLines(h: History): seq<Id> {
    if h.Then? && h.now.AskedSteer? then h.now.message.lines else []
  }

  /** The lines whose steers the running turn refused, in the order it did. */
  function HeldLines(h: History): seq<Id> {
    match h
    case Nothing => []
    case Then(before, Held) => HeldLines(before) + AskedLines(before)
    case Then(_, TurnOver) => []
    case Then(before, _) => HeldLines(before)
  }

  /** Whether in some turn the steer of `b` was accepted after that of `a` was refused. */
  predicate Overtook(h: History, a: Id, b: Id) {
    h.Then? &&
    (Overtook(h.before, a, b) || (h.now.Steered? && b in AskedLines(h.before) && a in HeldLines(h.before)))
  }

  /**
   * Whether a happening may follow a history:
   * - a turn is started with none running, no stop taken, and only with lines read and not yet taken, whose content it
   *   carries end to end;
   * - a steer goes to a running turn, under the same terms;
   * - ACCEPTED is said of a line read, once;
   * - a line is taken once, and was accepted;
   * - IDLE is said with the queue just found empty, no turn running, and every line read taken.
   */
  ghost predicate Proper(before: History, now: Happening) {
    match now
    case AskedStart(message) =>
      && RunningTurn(before).None? && !StopSeen(before)
      && SaysLines(before, message)
      && forall l :: l in message.lines ==> l in Arrivals(before) && l !in TakenLines(before)
    case AskedSteer(message) =>
      && RunningTurn(before).Some?
      && SaysLines(before, message)
      && forall l :: l in message.lines ==> l in Arrivals(before) && l !in TakenLines(before)
    case Began(_) => before.Then? && before.now.AskedStart?
    case Steered => before.Then? && before.now.AskedSteer?
    case Held => before.Then? && before.now.AskedSteer?
    case SaidAccepted(line) => line in Arrivals(before) && line !in AcceptedLines(before)
    case Taken(lines) => forall l :: l in lines ==> l in AcceptedLines(before) && l !in TakenLines(before)
    case TurnOver => RunningTurn(before).Some?
    case StopTaken => RunningTurn(before).Some?
    case SaidIdle =>
      && before.Then? && before.now.FoundEmpty?
      && RunningTurn(before).None? && multiset(Arrivals(before)) == TakenLines(before)
    case _ => true
  }

  ghost predicate WellTold(h: History) {
    h.Then? ==> WellTold(h.before) && Proper(h.before, h.now)
  }

  // ---- What a reader of the history may conclude ----

  /** How often a line was said accepted. */
  function TimesAccepted(h: History, line: Id): nat {
    match h
    case Nothing => 0
    case Then(before, SaidAccepted(said)) => TimesAccepted(before, line) + if said == line then 1 else 0
    case Then(before, _) => TimesAccepted(before, line)
  }

  /** ACCEPTED is said of no line twice, and of exactly the lines it was said of once. */
  lemma {:induction false} AcceptedOnce(h: History, line: Id)
    requires WellTold(h)
    ensures TimesAccepted(h, line) == if line in AcceptedLines(h) then 1 else 0
  {
    if h.Then? {
      AcceptedOnce(h.before, line);
    }
  }

  /** No line is reported taken twice, and none that was not read and accepted. */
  lemma {:induction false} TakenOnce(h: History, line: Id)
    requires WellTold(h)
    ensures line in TakenLines(h) ==> line in AcceptedLines(h)
    ensures line in AcceptedLines(h) ==> line in Arrivals(h)
  {
    if h.Then? {
      TakenOnce(h.before, line);
    }
  }

  /** `earlier` is where `h` once stood. */
  predicate Extends(h: History, earlier: History) {
    h == earlier || (h.Then? && Extends(h.before, earlier))
  }

  /** Once a stop was taken with a turn running, no turn begins: the one running, if any, is that same turn. */
  lemma {:induction false} NoTurnAfterStop(h: History, earlier: History)
    requires WellTold(h) && Extends(h, earlier) && StopSeen(earlier)
    ensures StopSeen(h)
    ensures RunningTurn(h) == RunningTurn(earlier) || RunningTurn(h).None?
    ensures h != earlier ==> !h.now.AskedStart? && !h.now.Began?
  {
    if h != earlier {
      NoTurnAfterStop(h.before, earlier);
    }
  }

  /** The lines held, and those that overtook or were overtaken, were read. */
  lemma {:induction false} HeldRead(h: History)
    requires WellTold(h)
    ensures forall l :: l in HeldLines(h) || l in AskedLines(h) ==> l in Arrivals(h)
  {
    if h.Then? {
      HeldRead(h.before);
    }
  }

  lemma {:induction false} OvertookRead(h: History, a: Id, b: Id)
    requires WellTold(h) && Overtook(h, a, b)
    ensures a in Arrivals(h) && b in Arrivals(h)
  {
    if Overtook(h.before, a, b) {
      OvertookRead(h.before, a, b);
    } else {
      HeldRead(h.before);
    }
  }
}
