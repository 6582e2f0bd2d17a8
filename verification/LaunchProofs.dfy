/**
 * What every run of a launch keeps: no line lost, none said or taken twice,
 * one turn at a time, and an end only where nothing is left unanswered.
 */
module LaunchProofs {
  import opened Basics
  import opened Launch
  import opened LaunchHistory

  // ---- Ids the world may still bring ----

  function SignalIds(signals: seq<Signal>): multiset<Id> {
    if signals == [] then multiset{} else IdsOf(signals[0]) + SignalIds(signals[1..])
  }

  function IdsOf(signal: Signal): multiset<Id> {
    match signal
    case LineRead(Message(Some(uuid), _)) => multiset{Given(uuid)}
    case _ => multiset{}
  }

  function ScriptIds(script: seq<Moment>): multiset<Id> {
    if script == [] then multiset{} else SignalIds(script[0].arrivals) + ScriptIds(script[1..])
  }

  /** Every id the service ever gives a line: those read, those queued, and those still to come. */
  function Ledger(s: State): multiset<Id> {
    multiset(Arrivals(s.told)) + SignalIds(s.signals) + ScriptIds(s.script)
  }

  lemma {:induction false} SignalIdsConcat(a: seq<Signal>, b: seq<Signal>)
    ensures SignalIds(a + b) == SignalIds(a) + SignalIds(b)
  {
    if a == [] {
      assert a + b == b;
    } else {
      calc {
        SignalIds(a + b);
        { assert (a + b)[0] == a[0] && (a + b)[1..] == a[1..] + b; }
        IdsOf(a[0]) + SignalIds(a[1..] + b);
        { SignalIdsConcat(a[1..], b); }
        IdsOf(a[0]) + (SignalIds(a[1..]) + SignalIds(b));
        SignalIds(a) + SignalIds(b);
      }
    }
  }

  lemma {:induction false} SignalIdsGiven(signals: seq<Signal>, id: Id)
    requires id in SignalIds(signals)
    ensures id.Given?
  {
    if id !in IdsOf(signals[0]) {
      SignalIdsGiven(signals[1..], id);
    }
  }

  lemma {:induction false} ScriptIdsGiven(script: seq<Moment>, id: Id)
    requires id in ScriptIds(script)
    ensures id.Given?
  {
    if id in SignalIds(script[0].arrivals) {
      SignalIdsGiven(script[0].arrivals, id);
    } else {
      ScriptIdsGiven(script[1..], id);
    }
  }

  lemma PauseLedger(s: State)
    ensures Ledger(Pause(s)) == Ledger(s)
  {
    if s.script != [] {
      SignalIdsConcat(s.signals, s.script[0].arrivals);
    }
  }

  // ---- Messages and the lines they carry ----

  lemma {:induction false} LinesOfConcat(a: seq<Outgoing>, b: seq<Outgoing>)
    ensures LinesOf(a + b) == LinesOf(a) + LinesOf(b)
  {
    if a == [] {
      assert a + b == b;
    } else {
      calc {
        LinesOf(a + b);
        { assert (a + b)[0] == a[0] && (a + b)[1..] == a[1..] + b; }
        a[0].lines + LinesOf(a[1..] + b);
        { LinesOfConcat(a[1..], b); }
        a[0].lines + (LinesOf(a[1..]) + LinesOf(b));
        LinesOf(a) + LinesOf(b);
      }
    }
  }

  lemma {:induction false} LineIn(messages: seq<Outgoing>, o: Outgoing, line: Id)
    requires o in messages && line in o.lines
    ensures line in LinesOf(messages)
  {
    if messages[0] != o {
      LineIn(messages[1..], o, line);
    }
  }

  ghost predicate Carried(h: History, o: Outgoing) {
    SaysLines(h, o)
  }

  lemma {:induction false} ContentsConcat(h: History, a: seq<Id>, b: seq<Id>)
    ensures Contents(h, a + b) == Contents(h, a) + Contents(h, b)
  {
    if a == [] {
      assert a + b == b;
    } else {
      calc {
        Contents(h, a + b);
        { assert (a + b)[0] == a[0] && (a + b)[1..] == a[1..] + b; }
        ContentOf(h, a[0]) + Contents(h, a[1..] + b);
        { ContentsConcat(h, a[1..], b); }
        ContentOf(h, a[0]) + (Contents(h, a[1..]) + Contents(h, b));
        Contents(h, a) + Contents(h, b);
      }
    }
  }

  lemma {:induction false} ContentsSame(h: History, h': History, lines: seq<Id>)
    requires forall l :: l in lines ==> ContentOf(h', l) == ContentOf(h, l)
    ensures Contents(h', lines) == Contents(h, lines)
  {
    if lines != [] {
      ContentsSame(h, h', lines[1..]);
    }
  }

  /** A merged turn means the same messages: their lines and their content, end to end, in the order given. */
  lemma {:induction false} MergedCarriesAll(messages: seq<Outgoing>, minted: nat)
    requires messages != []
    ensures Merged(messages, minted).lines == LinesOf(messages)
    ensures Merged(messages, minted).input == InputsOf(messages)
  {
    if |messages| == 1 {
      assert messages[1..] == [];
      assert LinesOf(messages) == messages[0].lines + LinesOf(messages[1..]);
      assert InputsOf(messages) == messages[0].input + InputsOf(messages[1..]);
    }
  }

  lemma {:induction false} InputsCarried(h: History, messages: seq<Outgoing>)
    requires forall o :: o in messages ==> Carried(h, o)
    ensures BlocksIn(InputsOf(messages)) == Some(Contents(h, LinesOf(messages)))
  {
    if messages != [] {
      InputsCarried(h, messages[1..]);
      ContentsConcat(h, messages[0].lines, LinesOf(messages[1..]));
      assert Carried(h, messages[0]);
      BlocksConcat(messages[0].input, InputsOf(messages[1..]));
    }
  }

  // ---- Order of arrival ----

  ghost predicate Before(a: Id, b: Id, order: seq<Id>) {
    exists i, j :: 0 <= i < j < |order| && order[i] == a && order[j] == b
  }

  /** The lines stand in the order they arrived in. */
  ghost predicate InOrder(lines: seq<Id>, order: seq<Id>) {
    forall i, j {:trigger Before(lines[i], lines[j], order)} ::
      0 <= i < j < |lines| ==> Before(lines[i], lines[j], order)
  }

  /**
   * The lines stand in the order they arrived in, but for those whose steer overtook another's: such a line stands
   * ahead of the earlier one it overtook, and no line that was overtaken stands ahead of the one that did.
   */
  ghost predicate Ordered(h: History, lines: seq<Id>) {
    forall i, j {:trigger Placed(h, lines[i], lines[j])} :: 0 <= i < j < |lines| ==> Placed(h, lines[i], lines[j])
  }

  /** `a` may stand ahead of `b`. */
  ghost predicate Placed(h: History, a: Id, b: Id) {
    && (if Overtook(h, b, a) then Before(b, a, Arrivals(h)) else Before(a, b, Arrivals(h)))
    && !Overtook(h, a, b)
  }

  lemma PlacedAs(h: History, h': History, a: Id, b: Id)
    requires Placed(h, a, b) && Arrivals(h') == Arrivals(h)
    requires Overtook(h', a, b) == Overtook(h, a, b) && Overtook(h', b, a) == Overtook(h, b, a)
    ensures Placed(h', a, b)
  {
  }

  lemma OrderedAs(h: History, h': History, lines: seq<Id>)
    requires Ordered(h, lines) && Arrivals(h') == Arrivals(h)
    requires forall a, b :: Overtook(h', a, b) == Overtook(h, a, b)
    ensures Ordered(h', lines)
  {
    forall i, j | 0 <= i < j < |lines| ensures Placed(h', lines[i], lines[j]) {
      PlacedAs(h, h', lines[i], lines[j]);
    }
  }

  lemma OrderedDrop(h: History, a: seq<Id>, b: seq<Id>, d: seq<Id>)
    requires Ordered(h, a + b + d)
    ensures Ordered(h, a + d)
  {
    var all, left := a + b + d, a + d;
    forall i, j | 0 <= i < j < |left| ensures Placed(h, left[i], left[j]) {
      var i' := if i < |a| then i else i + |b|;
      var j' := if j < |a| then j else j + |b|;
      assert all[i'] == left[i] && all[j'] == left[j];
      assert Placed(h, all[i'], all[j']);
    }
  }

  lemma BeforeAdd(a: Id, b: Id, order: seq<Id>, line: Id)
    ensures Before(a, b, order) ==> Before(a, b, order + [line])
    ensures a in order ==> Before(a, line, order + [line])
  {
    var arrived := order + [line];
    if Before(a, b, order) {
      var p, q :| 0 <= p < q < |order| && order[p] == a && order[q] == b;
      assert arrived[p] == a && arrived[q] == b;
    }
    if a in order {
      var p :| 0 <= p < |order| && order[p] == a;
      assert arrived[p] == a && arrived[|order|] == line;
    }
  }

  /** A line read last stands last, and has overtaken nothing. */
  lemma OrderedRead(h: History, lines: seq<Id>, line: Id, content: seq<Block>)
    requires WellTold(h) && Ordered(h, lines) && line !in Arrivals(h)
    requires forall l :: l in lines ==> l in Arrivals(h)
    ensures Ordered(Then(h, Read(line, content)), lines + [line])
  {
    var h', left := Then(h, Read(line, content)), lines + [line];
    forall i, j | 0 <= i < j < |left| ensures Placed(h', left[i], left[j]) {
      BeforeAdd(left[i], left[j], Arrivals(h), line);
      BeforeAdd(left[j], left[i], Arrivals(h), line);
      if j < |lines| {
        assert Placed(h, lines[i], lines[j]);
      } else {
        assert left[i] == lines[i];
        NeverOvertook(h, left[i], line);
      }
    }
  }

  lemma NeverOvertook(h: History, a: Id, line: Id)
    requires WellTold(h) && line !in Arrivals(h)
    ensures !Overtook(h, a, line) && !Overtook(h, line, a)
  {
    if Overtook(h, a, line) {
      OvertookRead(h, a, line);
    }
    if Overtook(h, line, a) {
      OvertookRead(h, line, a);
    }
  }

  /** A steer accepted goes ahead of those the turn refused, and overtakes exactly them. */
  lemma OrderedSteered(h: History, sent: seq<Id>, waiting: seq<Id>, line: Id)
    requires Ordered(h, sent + waiting + [line]) && AskedLines(h) == [line] && HeldLines(h) == waiting
    requires forall a :: !Overtook(h, a, line) && !Overtook(h, line, a)
    requires forall l :: l in sent ==> l !in waiting
    requires line !in waiting && line !in sent
    ensures Ordered(Then(h, Steered), sent + [line] + waiting)
  {
    var h', were, left := Then(h, Steered), sent + waiting + [line], sent + [line] + waiting;
    var n := |sent|;
    forall i, j | 0 <= i < j < |left| ensures Placed(h', left[i], left[j]) {
      if i == n {
        var w := left[j];
        assert w == waiting[j - n - 1] == were[j - 1] && were[|were| - 1] == line;
        assert Placed(h, w, line);
      } else {
        var i' := if i < n then i else i - 1;
        var j' := if j < n then j else if j == n then |were| - 1 else j - 1;
        assert left[i] == were[i'] && left[j] == were[j'];
        assert Placed(h, were[i'], were[j']);
        assert j == n ==> left[i] == sent[i];
        assert j != n ==> left[j] != line by {
          assert j < n ==> left[j] == sent[j];
          assert j > n ==> left[j] == waiting[j - n - 1];
        }
        assert left[i] != line by {
          assert i < n ==> left[i] == sent[i];
          assert i > n ==> left[i] == waiting[i - n - 1];
        }
      }
    }
  }

  // ---- The invariant ----

  ghost predicate Minting(h: History, minted: nat) {
    forall id :: id in Arrivals(h) && id.Minted? ==> id.serial < minted
  }

  /** A message is known by the id of the one line it carries, or by one made for it, which is no line's. */
  ghost predicate Named(h: History, minted: nat, o: Outgoing) {
    o.clientId in Arrivals(h) || (o.clientId.Minted? && o.clientId.serial < minted)
  }

  /** The history is well told, and tells of the state's own turn, stop and lines accepted. */
  ghost predicate Tells(s: State) {
    && WellTold(s.told)
    && RunningTurn(s.told) == s.turnId && StopSeen(s.told) == s.stopping && AcceptedLines(s.told) == s.accepted
  }

  /** Every line read was taken or is owed, once, and no id comes twice; a line accepted was taken or is owed. */
  ghost predicate Counts(s: State, owed: seq<Outgoing>, extra: multiset<Id>) {
    && multiset(Arrivals(s.told)) == TakenLines(s.told) + multiset(LinesOf(owed))
    && NoRepeat(Ledger(s) + extra)
    && (forall id :: id in extra ==> id.Given?)
    && Minting(s.told, s.minted)
    && (forall l :: l in TakenLines(s.told) ==> l in s.accepted)
    && (forall l :: l in s.accepted ==> l in TakenLines(s.told) || l in LinesOf(owed))
  }

  /** Each message owed carries its lines' own content. */
  ghost predicate Carries(s: State, owed: seq<Outgoing>) {
    forall o :: o in owed ==> Carried(s.told, o) && Named(s.told, s.minted, o)
  }

  /** The lines owed stand in the order they arrived in, but for those that overtook others. */
  ghost predicate Orders(s: State, owed: seq<Outgoing>) {
    Ordered(s.told, LinesOf(owed))
  }

  /**
   * What holds of a state that owes an answer to the messages `owed`, while the world may still bring the ids `extra`
   * besides those of the state's own queue and script.
   */
  ghost predicate Owes(s: State, owed: seq<Outgoing>, extra: multiset<Id>) {
    Tells(s) && Counts(s, owed, extra) && Carries(s, owed) && Orders(s, owed)
  }

  ghost predicate DistinctNames(sent: seq<Outgoing>) {
    forall i, j {:trigger sent[i].clientId, sent[j].clientId} ::
      0 <= i < j < |sent| ==> sent[i].clientId != sent[j].clientId
  }

  /** What the controller's own tables say of the messages owed. */
  ghost predicate Tabled(s: State) {
    && DistinctNames(s.sent)
    && (forall l :: l in LinesOf(s.sent) ==> l in s.accepted)
    && (forall l :: l in LinesOf(s.waiting) ==> l !in s.accepted)
    && HeldLines(s.told) == LinesOf(s.waiting)
  }

  /**
   * With no turn running nothing is owed; only a launch configured warm is warm, and only with no turn; a stop taken
   * waits on a turn.
   */
  ghost predicate Phase(c: Config, s: State) {
    && (s.turnId.None? ==> s.sent == [] && s.waiting == [])
    && (s.warm ==> c.warm && s.turnId.None?)
    && (s.stopping ==> s.turnId.Some?)
  }

  ghost predicate Inv(c: Config, s: State, extra: multiset<Id>) {
    Owes(s, s.sent + s.waiting, extra) && Tabled(s) && Phase(c, s)
  }

  /** Nothing is owed: no turn, no message unanswered, every line read taken. */
  ghost predicate AllAnswered(s: State) {
    && s.turnId.None? && s.sent == [] && s.waiting == []
    && multiset(Arrivals(s.told)) == TakenLines(s.told)
  }

  ghost predicate EndProper(c: Config, s: State, end: End) {
    && (end != FailedLaunch && end != Stopped ==> AllAnswered(s) && !s.stopping)
    && (end == TurnEnded ==> !c.warm && s.signals == [] && s.told.Then? && s.told.now.FoundEmpty?)
    && (end == Idled ==> c.warm)
  }

  /** What a step leaves: the invariant where the launch runs on, a proper end, and always a history well told. */
  ghost predicate Good(c: Config, r: Step) {
    match r
    case On(s) => Inv(c, s, multiset{})
    case Ended(s, end) => Owes(s, s.sent + s.waiting, multiset{}) && EndProper(c, s, end)
    case Threw(s) => WellTold(s.told)
  }

  // ---- What each piece of a step keeps ----

  /** What is owed but its order: the history well told, and the messages owed its lines with their content. */
  ghost predicate OwesSome(s: State, owed: seq<Outgoing>, extra: multiset<Id>) {
    Tells(s) && Counts(s, owed, extra) && Carries(s, owed)
  }

  /** Nothing owed changes where a history grows by something other than a line read or taken. */
  lemma OwesTold(s: State, s': State, owed: seq<Outgoing>, extra: multiset<Id>)
    requires OwesSome(s, owed, extra)
    requires s'.told.Then? && s'.told.before == s.told && !s'.told.now.Read? && !s'.told.now.Taken?
    requires Proper(s.told, s'.told.now)
    requires RunningTurn(s'.told) == s'.turnId && StopSeen(s'.told) == s'.stopping
    requires !s'.told.now.SaidAccepted? && s'.accepted == s.accepted
    requires s'.signals == s.signals && s'.script == s.script && s'.minted >= s.minted
    ensures OwesSome(s', owed, extra)
    ensures Orders(s, owed) && !s'.told.now.Steered? ==> Orders(s', owed)
  {
    assert Arrivals(s'.told) == Arrivals(s.told) && TakenLines(s'.told) == TakenLines(s.told);
    assert AcceptedLines(s'.told) == AcceptedLines(s.told);
    if Orders(s, owed) && !s'.told.now.Steered? {
      OrderedAs(s.told, s'.told, LinesOf(owed));
    }
    assert WellTold(s'.told) && Minting(s'.told, s'.minted);
    assert Ledger(s') == Ledger(s);
    assert forall l :: ContentOf(s'.told, l) == ContentOf(s.told, l);
    forall o | o in owed ensures Carried(s'.told, o) && Named(s'.told, s'.minted, o) {
      assert Carried(s.told, o) && Named(s.told, s.minted, o);
      ContentsSame(s.told, s'.told, o.lines);
    }
  }

  lemma OwesPaused(s: State, owed: seq<Outgoing>, extra: multiset<Id>)
    requires Owes(s, owed, extra)
    ensures Owes(Pause(s), owed, extra)
  {
    PauseLedger(s);
  }

  /** Every trace but the lines accepted is as it was. */
  ghost predicate OnlyAccepted(h: History, h': History) {
    && Arrivals(h') == Arrivals(h) && TakenLines(h') == TakenLines(h)
    && RunningTurn(h') == RunningTurn(h) && StopSeen(h') == StopSeen(h)
    && HeldLines(h') == HeldLines(h) && (forall a, b :: Overtook(h', a, b) == Overtook(h, a, b))
    && (forall l :: ContentOf(h', l) == ContentOf(h, l))
  }

  lemma OnlyAcceptedTrans(a: History, b: History, d: History)
    requires OnlyAccepted(a, b) && OnlyAccepted(b, d)
    ensures OnlyAccepted(a, d)
  {
  }

  lemma SayOne(s: State, line: Id)
    requires WellTold(s.told) && AcceptedLines(s.told) == s.accepted
    requires line in Arrivals(s.told) && line !in s.accepted
    ensures var said := Tell(s, SaidAccepted(line)).(accepted := s.accepted + {line});
            WellTold(said.told) && AcceptedLines(said.told) == said.accepted && OnlyAccepted(s.told, said.told)
  {
  }

  lemma {:induction false} AcceptingSays(s: State, lines: seq<Id>)
    requires WellTold(s.told) && AcceptedLines(s.told) == s.accepted
    requires forall l :: l in lines ==> l in Arrivals(s.told)
    ensures var r := Accepting(s, lines);
            && r == s.(accepted := r.accepted, told := r.told)
            && r.accepted == s.accepted + (set l | l in lines)
            && WellTold(r.told) && AcceptedLines(r.told) == r.accepted && OnlyAccepted(s.told, r.told)
    decreases lines
  {
    if lines != [] {
      var rest := lines[1..];
      assert lines == [lines[0]] + rest && (set l | l in lines) == {lines[0]} + (set l | l in rest);
      if lines[0] in s.accepted {
        AcceptingSays(s, rest);
      } else {
        var said := Tell(s, SaidAccepted(lines[0])).(accepted := s.accepted + {lines[0]});
        SayOne(s, lines[0]);
        AcceptingSays(said, rest);
        OnlyAcceptedTrans(s.told, said.told, Accepting(said, rest).told);
      }
    }
  }

  /** A line owed was read, and not taken; and it is owed once. */
  lemma OwedOnce(s: State, owed: seq<Outgoing>, extra: multiset<Id>, line: Id)
    requires Owes(s, owed, extra)
    ensures line in LinesOf(owed) ==>
              line in Arrivals(s.told) && line !in TakenLines(s.told) && multiset(LinesOf(owed))[line] == 1
    ensures multiset(Arrivals(s.told))[line] <= 1
  {
    assert (Ledger(s) + extra)[line] <= 1;
  }

  lemma AcceptingOwes(s: State, owed: seq<Outgoing>, lines: seq<Id>)
    requires Owes(s, owed, multiset{})
    requires forall l :: l in lines ==> l in LinesOf(owed)
    ensures var r := Accepting(s, lines);
            && Owes(r, owed, multiset{})
            && r == s.(accepted := s.accepted + (set l | l in lines), told := r.told)
            && HeldLines(r.told) == HeldLines(s.told)
  {
    forall l | l in lines ensures l in Arrivals(s.told) {
      OwedOnce(s, owed, multiset{}, l);
    }
    AcceptingSays(s, lines);
    var r := Accepting(s, lines);
    assert Ledger(r) == Ledger(s);
    OrderedAs(s.told, r.told, LinesOf(owed));
    forall o | o in owed ensures Carried(r.told, o) && Named(r.told, r.minted, o) {
      assert Carried(s.told, o) && Named(s.told, s.minted, o);
      ContentsSame(s.told, r.told, o.lines);
    }
  }

  /** The same lines owed by other messages, or in another order that they may stand in. */
  lemma OwesReordered(s: State, owed: seq<Outgoing>, owed': seq<Outgoing>, extra: multiset<Id>)
    requires OwesSome(s, owed, extra) && Orders(s, owed')
    requires multiset(LinesOf(owed')) == multiset(LinesOf(owed))
    requires forall o :: o in owed' ==> Carried(s.told, o) && Named(s.told, s.minted, o)
    ensures Owes(s, owed', extra)
  {
    forall l | l in s.accepted ensures l in TakenLines(s.told) || l in LinesOf(owed') {
      assert l in LinesOf(owed) ==> l in multiset(LinesOf(owed'));
    }
  }

  lemma AskProper(s: State, owed: seq<Outgoing>, extra: multiset<Id>, o: Outgoing)
    requires Owes(s, owed, extra) && SaysLines(s.told, o)
    requires forall l :: l in o.lines ==> l in LinesOf(owed)
    ensures s.turnId.None? && !s.stopping ==> Proper(s.told, AskedStart(o))
    ensures s.turnId.Some? ==> Proper(s.told, AskedSteer(o))
  {
    forall l | l in o.lines ensures l in Arrivals(s.told) && l !in TakenLines(s.told) {
      OwedOnce(s, owed, extra, l);
    }
  }

  lemma AskTurnOwes(s: State, messages: seq<Outgoing>)
    requires Owes(s, messages, multiset{}) && messages != []
    requires s.turnId.None? && !s.stopping
    ensures var outgoing := Merged(messages, s.minted);
            var asked := AskTurn(s, messages);
            && Owes(asked, messages, multiset{})
            && outgoing.lines == LinesOf(messages) && Carried(asked.told, outgoing)
            && Named(asked.told, asked.minted, outgoing)
  {
    var outgoing := Merged(messages, s.minted);
    var asked := AskTurn(s, messages);
    MergedCarriesAll(messages, s.minted);
    InputsCarried(s.told, messages);
    AskProper(s, messages, multiset{}, outgoing);
    OwesTold(s, asked, messages, multiset{});
    ContentsSame(s.told, asked.told, outgoing.lines);
    if |messages| == 1 {
      assert messages[0] in messages;
    }
  }

  lemma BeginTurnKeeps(c: Config, s: State, messages: seq<Outgoing>, outgoing: Outgoing, turn: string)
    requires Owes(s, messages, multiset{})
    requires s.turnId.None? && s.sent == [] && s.waiting == []
    requires !s.stopping && !s.warm && HeldLines(s.told) == []
    requires s.told.Then? && s.told.now.AskedStart?
    requires outgoing.lines == LinesOf(messages) && Carried(s.told, outgoing) && Named(s.told, s.minted, outgoing)
    ensures var r := BeginTurn(s, outgoing, turn); Inv(c, r, multiset{}) && r.turnId.Some?
  {
    var began := Tell(s, Began(turn)).(turnId := Some(turn), sent := [outgoing]);
    BegunOwes(s, messages, outgoing, turn);
    OneOwed(outgoing);
    AcceptingOwes(began, [outgoing], outgoing.lines);
    BegunTabled(began, outgoing);
    var r := Accepting(began, outgoing.lines);
    assert r.sent + r.waiting == [outgoing];
  }

  lemma BegunOwes(s: State, messages: seq<Outgoing>, outgoing: Outgoing, turn: string)
    requires Owes(s, messages, multiset{}) && s.told.Then? && s.told.now.AskedStart?
    requires outgoing.lines == LinesOf(messages) && Carried(s.told, outgoing) && Named(s.told, s.minted, outgoing)
    ensures Owes(Tell(s, Began(turn)).(turnId := Some(turn), sent := [outgoing]), [outgoing], multiset{})
  {
    var began := Tell(s, Began(turn)).(turnId := Some(turn), sent := [outgoing]);
    OwesTold(s, began, messages, multiset{});
    ContentsSame(s.told, began.told, outgoing.lines);
    OneOwed(outgoing);
    OwesReordered(began, messages, [outgoing], multiset{});
  }

  lemma OneOwed(o: Outgoing)
    ensures LinesOf([o]) == o.lines
  {
    assert [o][1..] == [] && o.lines + [] == o.lines;
  }

  lemma BegunTabled(began: State, o: Outgoing)
    requires began.sent == [o] && began.waiting == [] && HeldLines(began.told) == []
    requires var r := Accepting(began, o.lines);
      r == began.(accepted := began.accepted + (set l | l in o.lines), told := r.told)
      && HeldLines(r.told) == HeldLines(began.told)
    ensures Tabled(Accepting(began, o.lines))
  {
    OneOwed(o);
  }

  lemma AskedPaused(s: State, messages: seq<Outgoing>)
    requires Owes(s, messages, multiset{}) && messages != []
    requires s.turnId.None? && s.sent == [] && s.waiting == []
    requires !s.stopping && !s.warm && HeldLines(s.told) == []
    ensures var outgoing, p := Merged(messages, s.minted), Pause(AskTurn(s, messages));
            && Owes(p, messages, multiset{}) && p.turnId.None? && p.sent == [] && p.waiting == []
            && !p.stopping && !p.warm && HeldLines(p.told) == [] && p.told.Then? && p.told.now.AskedStart?
            && outgoing.lines == LinesOf(messages) && Carried(p.told, outgoing) && Named(p.told, p.minted, outgoing)
  {
    var asked := AskTurn(s, messages);
    AskTurnOwes(s, messages);
    OwesPaused(asked, messages, multiset{});
    var p := Pause(asked);
    assert p.told == asked.told && p.turnId == s.turnId && p.sent == [] && p.waiting == [] && p.minted == asked.minted;
    assert HeldLines(p.told) == [] && p.told.Then? && p.told.now.AskedStart?;
  }

  /** A turn started with every message owed: app-server takes them as one, or the launch fails. */
  lemma StartTurnKeeps(c: Config, s: State, messages: seq<Outgoing>)
    requires Owes(s, messages, multiset{}) && messages != []
    requires s.turnId.None? && s.sent == [] && s.waiting == []
    requires !s.stopping && !s.warm && HeldLines(s.told) == []
    ensures Good(c, StartTurn(s, messages))
    ensures var r := StartTurn(s, messages); r.On? ==> r.s.turnId.Some?
  {
    AskedPaused(s, messages);
    var asked := AskTurn(s, messages);
    match AnswerTo(asked)
    case Answered(Some(turn)) => BeginTurnKeeps(c, Pause(asked), messages, Merged(messages, s.minted), turn);
    case _ => assert StartTurn(s, messages) == Threw(Pause(asked));
  }

  lemma MultisetAdd<T>(a: seq<T>, x: T)
    ensures multiset(a + [x]) == multiset(a) + multiset{x}
  {
  }

  lemma ReadLedger(s: State, uuid: Option<string>, content: seq<Block>)
    ensures Ledger(ReadMessage(s, uuid, content)) == Ledger(s) + multiset{MessageId(s, uuid)}
  {
    var read, id := ReadMessage(s, uuid, content), MessageId(s, uuid);
    assert Arrivals(read.told) == Arrivals(s.told) + [id];
    MultisetAdd(Arrivals(s.told), id);
  }

  /** The id a message is read under is no earlier line's, and leaves every id the service gave distinct. */
  lemma FreshId(s: State, uuid: Option<string>, content: seq<Block>)
    requires NoRepeat(Ledger(s) + IdsOf(LineRead(Message(uuid, content)))) && Minting(s.told, s.minted)
    ensures var read := ReadMessage(s, uuid, content);
            && MessageId(s, uuid) !in Arrivals(s.told) && NoRepeat(Ledger(read)) && Minting(read.told, read.minted)
  {
    ReadLedger(s, uuid, content);
    NewId(s, uuid, content);
    assert Arrivals(ReadMessage(s, uuid, content).told) == Arrivals(s.told) + [MessageId(s, uuid)];
  }

  /** The id is nowhere else among those the launch knows or will. */
  lemma NewId(s: State, uuid: Option<string>, content: seq<Block>)
    requires NoRepeat(Ledger(s) + IdsOf(LineRead(Message(uuid, content)))) && Minting(s.told, s.minted)
    ensures MessageId(s, uuid) !in Arrivals(s.told) && NoRepeat(Ledger(s) + multiset{MessageId(s, uuid)})
  {
    var id := MessageId(s, uuid);
    assert (Ledger(s) + IdsOf(LineRead(Message(uuid, content))))[id] <= 1;
    if uuid.Some? {
      assert IdsOf(LineRead(Message(uuid, content))) == multiset{id};
      assert Ledger(s)[id] == 0;
      assert id !in multiset(Arrivals(s.told));
    } else {
      MintedNew(s);
      forall x ensures (Ledger(s) + multiset{id})[x] <= 1 {
        assert (Ledger(s) + IdsOf(LineRead(Message(uuid, content))))[x] <= 1;
      }
    }
  }

  lemma MintedNew(s: State)
    requires Minting(s.told, s.minted)
    ensures Minted(s.minted) !in Arrivals(s.told) && Ledger(s)[Minted(s.minted)] == 0
  {
    var id := Minted(s.minted);
    if id in SignalIds(s.signals) {
      SignalIdsGiven(s.signals, id);
    }
    if id in ScriptIds(s.script) {
      ScriptIdsGiven(s.script, id);
    }
    assert id !in multiset(Arrivals(s.told));
  }

  /** `s'` is `s` with the line of `o` read. */
  ghost predicate Reading(s: State, s': State, o: Outgoing) {
    && o.lines == [o.clientId] && BlocksIn(o.input).Some?
    && s' == Tell(s, Read(o.clientId, BlocksIn(o.input).value)).(warm := s'.warm, minted := s'.minted)
    && o.clientId !in Arrivals(s.told) && NoRepeat(Ledger(s')) && Minting(s'.told, s'.minted)
    && s.minted <= s'.minted
  }

  lemma LinesAdd(messages: seq<Outgoing>, o: Outgoing)
    ensures LinesOf(messages + [o]) == LinesOf(messages) + o.lines
  {
    LinesOfConcat(messages, [o]);
    assert LinesOf([o]) == o.lines + LinesOf([o][1..]) == o.lines;
  }

  lemma OwedRead(s: State, owed: seq<Outgoing>, extra: multiset<Id>)
    requires Counts(s, owed, extra)
    ensures forall l :: l in LinesOf(owed) ==> l in Arrivals(s.told)
  {
    forall l | l in LinesOf(owed) ensures l in Arrivals(s.told) {
      assert l in multiset(LinesOf(owed));
      assert l in multiset(Arrivals(s.told));
    }
  }

  lemma ReadCounts(s: State, s': State, owed: seq<Outgoing>, o: Outgoing, extra: multiset<Id>)
    requires Tells(s) && Counts(s, owed, extra) && Reading(s, s', o)
    ensures Counts(s', owed + [o], multiset{}) && o.clientId !in s.accepted
  {
    LinesAdd(owed, o);
    assert Arrivals(s'.told) == Arrivals(s.told) + [o.clientId] && TakenLines(s'.told) == TakenLines(s.told);
    MultisetAdd(Arrivals(s.told), o.clientId);
    MultisetAdd(LinesOf(owed), o.clientId);
    TakenOnce(s.told, o.clientId);
    assert forall l :: l in LinesOf(owed + [o]) <==> l in LinesOf(owed) || l == o.clientId;
    assert Ledger(s') + multiset{} == Ledger(s');
  }

  lemma ReadOrders(s: State, s': State, owed: seq<Outgoing>, o: Outgoing, extra: multiset<Id>)
    requires Tells(s) && Counts(s, owed, extra) && Orders(s, owed) && Reading(s, s', o)
    ensures Orders(s', owed + [o])
  {
    LinesAdd(owed, o);
    OwedRead(s, owed, extra);
    OrderedRead(s.told, LinesOf(owed), o.clientId, BlocksIn(o.input).value);
  }

  /** A line read joins what is owed, last. */
  lemma OwesRead(s: State, s': State, owed: seq<Outgoing>, o: Outgoing, extra: multiset<Id>)
    requires Owes(s, owed, extra) && Reading(s, s', o)
    ensures Owes(s', owed + [o], multiset{})
    ensures o.clientId !in s.accepted
  {
    ReadCounts(s, s', owed, o, extra);
    ReadOrders(s, s', owed, o, extra);
    OwedRead(s, owed, extra);
    forall p | p in owed + [o] ensures Carried(s'.told, p) && Named(s'.told, s'.minted, p) {
      OwesReadCarried(s, s', owed, o, p);
    }
  }

  lemma OwesReadCarried(s: State, s': State, owed: seq<Outgoing>, o: Outgoing, p: Outgoing)
    requires forall l :: l in LinesOf(owed) ==> l in Arrivals(s.told)
    requires o.lines == [o.clientId] && s.minted <= s'.minted
    requires BlocksIn(o.input).Some? && s'.told == Then(s.told, Read(o.clientId, BlocksIn(o.input).value))
    requires o.clientId !in Arrivals(s.told)
    requires p in owed ==> Carried(s.told, p) && Named(s.told, s.minted, p)
    requires p in owed || p == o
    ensures Carried(s'.told, p) && Named(s'.told, s'.minted, p)
  {
    if p in owed {
      forall l | l in p.lines ensures ContentOf(s'.told, l) == ContentOf(s.told, l) {
        LineIn(owed, p, l);
      }
      ContentsSame(s.told, s'.told, p.lines);
    } else {
      assert o.lines[1..] == [];
      assert Contents(s'.told, o.lines) == ContentOf(s'.told, o.clientId) + Contents(s'.told, o.lines[1..]);
      assert ContentOf(s'.told, o.clientId) + [] == ContentOf(s'.told, o.clientId);
    }
  }

  /** A message line read with no turn running starts one; with one running it is steered into it, or waits. */
  lemma ReadMessageOwes(c: Config, s: State, uuid: Option<string>, content: seq<Block>)
    requires Inv(c, s, IdsOf(LineRead(Message(uuid, content))))
    ensures var o := Alone(MessageId(s, uuid), content);
            && Owes(ReadMessage(s, uuid, content), s.sent + s.waiting + [o], multiset{})
            && o.clientId !in Arrivals(s.told) && o.clientId !in s.accepted
            && NotOvertaking(ReadMessage(s, uuid, content).told, o.clientId)
  {
    FreshId(s, uuid, content);
    forall a ensures !Overtook(s.told, a, MessageId(s, uuid)) && !Overtook(s.told, MessageId(s, uuid), a) {
      NeverOvertook(s.told, a, MessageId(s, uuid));
    }
    InputReadsBack(content);
    OwesRead(s, ReadMessage(s, uuid, content), s.sent + s.waiting, Alone(MessageId(s, uuid), content),
             IdsOf(LineRead(Message(uuid, content))));
  }

  ghost predicate NotOvertaking(h: History, line: Id) {
    forall a :: !Overtook(h, a, line) && !Overtook(h, line, a)
  }

  /** A message read while a turn runs, owed and not yet in a table. */
  ghost predicate Steering(c: Config, s: State, o: Outgoing) {
    && Owes(s, s.sent + s.waiting + [o], multiset{}) && Tabled(s) && Phase(c, s) && s.turnId.Some?
    && o.lines == [o.clientId] && o.clientId !in s.accepted && NotOvertaking(s.told, o.clientId)
    && (forall p :: p in s.sent ==> p.clientId != o.clientId)
  }

  lemma SteerAskedOwes(s: State, owed: seq<Outgoing>, o: Outgoing)
    requires Owes(s, owed + [o], multiset{}) && s.turnId.Some?
    ensures Owes(Pause(Tell(s, AskedSteer(o))), owed + [o], multiset{})
  {
    var asked := Tell(s, AskedSteer(o));
    LinesAdd(owed, o);
    assert o in owed + [o] && Carried(s.told, o);
    AskProper(s, owed + [o], multiset{}, o);
    OwesTold(s, asked, owed + [o], multiset{});
    OwesPaused(asked, owed + [o], multiset{});
  }

  /** The tables say the same where they, and what was accepted and held, are the same. */
  lemma TabledSame(s: State, s': State)
    requires Tabled(s) && s'.sent == s.sent && s'.waiting == s.waiting && s'.accepted == s.accepted
    requires HeldLines(s'.told) == HeldLines(s.told)
    ensures Tabled(s')
  {
  }

  lemma SteeringAsked(c: Config, s: State, o: Outgoing)
    requires Steering(c, s, o)
    ensures Steering(c, Pause(Tell(s, AskedSteer(o))), o)
  {
    SteerAskedOwes(s, s.sent + s.waiting, o);
    var asked := Tell(s, AskedSteer(o));
    var r := Pause(asked);
    assert r.told == asked.told && r.sent == s.sent && r.waiting == s.waiting && r.turnId == s.turnId;
    assert r.accepted == s.accepted && r.stopping == s.stopping && r.warm == s.warm;
    TabledSame(s, r);
    assert NotOvertaking(r.told, o.clientId) by {
      forall a ensures !Overtook(r.told, a, o.clientId) && !Overtook(r.told, o.clientId, a) {
        assert !Overtook(s.told, a, o.clientId) && !Overtook(s.told, o.clientId, a);
      }
    }
  }

  /** The steer of `o` asked, and not yet answered. */
  ghost predicate SteerAsked(c: Config, s: State, o: Outgoing) {
    Steering(c, s, o) && s.told.Then? && s.told.now == AskedSteer(o)
  }

  lemma SteerHeldKeeps(c: Config, s: State, o: Outgoing)
    requires SteerAsked(c, s, o)
    ensures Inv(c, Tell(s, Held).(waiting := s.waiting + [o]), multiset{})
  {
    var owed := s.sent + s.waiting + [o];
    var held := Tell(s, Held).(waiting := s.waiting + [o]);
    OwesTold(s, held, owed, multiset{});
    assert held.sent + held.waiting == owed;
    SteerHeldTabled(s, held, o);
  }

  lemma SteerHeldTabled(s: State, held: State, o: Outgoing)
    requires Tabled(s) && o.lines == [o.clientId] && o.clientId !in s.accepted
    requires s.told.Then? && s.told.now == AskedSteer(o)
    requires held == Tell(s, Held).(waiting := s.waiting + [o])
    ensures Tabled(held)
  {
    LinesAdd(s.waiting, o);
    assert HeldLines(held.told) == HeldLines(s.told) + AskedLines(s.told);
  }

  lemma {:induction false} PutLast(sent: seq<Outgoing>, o: Outgoing)
    requires forall p :: p in sent ==> p.clientId != o.clientId
    ensures Put(sent, o) == sent + [o]
  {
    if sent != [] {
      PutLast(sent[1..], o);
    }
  }

  lemma SteeredOwes(c: Config, s: State, o: Outgoing)
    requires SteerAsked(c, s, o)
    ensures Owes(Tell(s, Steered).(sent := s.sent + [o]), s.sent + [o] + s.waiting, multiset{})
  {
    var owed, owed' := s.sent + s.waiting + [o], s.sent + [o] + s.waiting;
    var steered := Tell(s, Steered).(sent := s.sent + [o]);
    OwesTold(s, steered, owed, multiset{});
    assert multiset(LinesOf(owed')) == multiset(LinesOf(owed)) by { SteeredLines(s.sent, s.waiting, o); }
    SteeredOrders(c, s, o);
    OwesReordered(steered, owed, owed', multiset{});
  }

  lemma SteeredOrders(c: Config, s: State, o: Outgoing)
    requires SteerAsked(c, s, o)
    ensures Ordered(Then(s.told, Steered), LinesOf(s.sent + [o] + s.waiting))
  {
    var sent, waiting, owed := LinesOf(s.sent), LinesOf(s.waiting), s.sent + s.waiting + [o];
    SteeredLines(s.sent, s.waiting, o);
    LinesAdd(s.sent + s.waiting, o);
    LinesOfConcat(s.sent, s.waiting);
    assert LinesOf(owed) == sent + waiting + [o.clientId];
    OwedOnce(s, owed, multiset{}, o.clientId);
    forall l | l in sent ensures l !in waiting {
      OwedOnce(s, owed, multiset{}, l);
      OnceIn(sent, waiting, o.clientId, l);
    }
    OnceIn(sent, waiting, o.clientId, o.clientId);
    OrderedSteered(s.told, sent, waiting, o.clientId);
  }

  lemma OnceIn(sent: seq<Id>, waiting: seq<Id>, line: Id, l: Id)
    requires multiset(sent + waiting + [line])[l] <= 1
    ensures l in sent ==> l !in waiting
    ensures l == line ==> l !in sent && l !in waiting
  {
    assert multiset(sent + waiting + [line]) == multiset(sent) + multiset(waiting) + multiset{line};
    assert l in sent ==> multiset(sent)[l] > 0;
    assert l in waiting ==> multiset(waiting)[l] > 0;
  }

  lemma SteerTakenKeeps(c: Config, s: State, o: Outgoing)
    requires SteerAsked(c, s, o)
    ensures Inv(c, SteerTaken(s, o), multiset{})
  {
    var owed' := s.sent + [o] + s.waiting;
    var steered := Tell(s, Steered).(sent := s.sent + [o]);
    PutLast(s.sent, o);
    SteeredOwes(c, s, o);
    assert o.lines[0] in LinesOf(owed') by { LineIn(owed', o, o.clientId); }
    AcceptingOwes(steered, owed', o.lines);
    var r := Accepting(steered, o.lines);
    assert SteerTaken(s, o) == r && r.sent + r.waiting == owed';
    SteerTakenTabled(c, s, o, r);
  }

  lemma SteerTakenTabled(c: Config, s: State, o: Outgoing, r: State)
    requires SteerAsked(c, s, o) && r.sent == s.sent + [o] && r.waiting == s.waiting
    requires r.accepted == s.accepted + (set l | l in o.lines) && HeldLines(r.told) == HeldLines(Then(s.told, Steered))
    ensures Tabled(r)
  {
    SteeredTabled(c, s, o);
    assert (set l | l in o.lines) == {o.clientId};
  }

  lemma SteeredTabled(c: Config, s: State, o: Outgoing)
    requires Steering(c, s, o)
    ensures DistinctNames(s.sent + [o])
    ensures forall l :: l in LinesOf(s.sent + [o]) ==> l in s.accepted || l == o.clientId
    ensures forall l :: l in LinesOf(s.waiting) ==> l !in s.accepted && l != o.clientId
  {
    assert LinesOf(s.sent + [o]) == LinesOf(s.sent) + [o.clientId] by { SteeredLines(s.sent, s.waiting, o); }
    SteeredNotWaiting(c, s, o);
  }

  lemma SteeredNotWaiting(c: Config, s: State, o: Outgoing)
    requires Steering(c, s, o)
    ensures o.clientId !in LinesOf(s.waiting)
  {
    SteeredLines(s.sent, s.waiting, o);
    OwedOnce(s, s.sent + s.waiting + [o], multiset{}, o.clientId);
    assert o.clientId in LinesOf(s.waiting) ==> multiset(LinesOf(s.waiting))[o.clientId] > 0;
  }

  /** A steer the turn takes is sent and accepted; one it cannot take waits; and the message read is owed either way. */
  lemma SteerKeeps(c: Config, s: State, o: Outgoing)
    requires Steering(c, s, o)
    ensures Good(c, Steer(s, o))
    ensures Steer(s, o).On? ==> Steer(s, o).s.turnId.Some?
  {
    var asked := Tell(s, AskedSteer(o));
    var p := Pause(asked);
    SteeringAsked(c, s, o);
    assert p.told == asked.told && p.waiting == s.waiting;
    match AnswerTo(asked)
    case Answered(_) =>
      SteerTakenKeeps(c, p, o);
      SteerTakenRuns(p, o);
    case Refused(code, data) =>
      if SteerWaits(code, data) {
        SteerHeldKeeps(c, p, o);
      } else {
        assert Steer(s, o) == Threw(p);
      }
  }

  lemma SteerTakenRuns(s: State, o: Outgoing)
    ensures SteerTaken(s, o).turnId == s.turnId
  {
    AcceptingPends(Tell(s, Steered).(sent := Put(s.sent, o)), o.lines);
  }

  lemma SteeredLines(sent: seq<Outgoing>, waiting: seq<Outgoing>, o: Outgoing)
    requires o.lines == [o.clientId]
    ensures LinesOf(sent + [o]) == LinesOf(sent) + [o.clientId]
    ensures LinesOf(sent + [o] + waiting) == LinesOf(sent) + [o.clientId] + LinesOf(waiting)
    ensures multiset(LinesOf(sent + [o] + waiting)) == multiset(LinesOf(sent + waiting + [o]))
    ensures multiset(LinesOf(sent + waiting + [o]))
         == multiset(LinesOf(sent)) + multiset(LinesOf(waiting)) + multiset{o.clientId}
  {
    assert LinesOf([o]) == o.lines + LinesOf([o][1..]) == [o.clientId];
    LinesOfConcat(sent, [o]);
    LinesOfConcat(sent + [o], waiting);
    LinesOfConcat(sent, waiting);
    LinesOfConcat(sent + waiting, [o]);
  }

  /** A message line, whatever app-server answers. */
  lemma MessageKeeps(c: Config, s: State, uuid: Option<string>, content: seq<Block>)
    requires Inv(c, s, IdsOf(LineRead(Message(uuid, content))))
    ensures var r := TakeLine(c, s, Message(uuid, content)); Good(c, r) && (r.On? ==> r.s.turnId.Some?)
  {
    ReadMessageOwes(c, s, uuid, content);
    var o := Alone(MessageId(s, uuid), content);
    var read := ReadMessage(s, uuid, content);
    if s.turnId.None? {
      assert s.sent + s.waiting + [o] == [o];
      StartTurnKeeps(c, read, [o]);
    } else {
      forall p | p in read.sent ensures p.clientId != o.clientId {
        assert p in s.sent + s.waiting;
        assert Named(s.told, s.minted, p);
      }
      SteerKeeps(c, read, o);
    }
  }

  // ---- A message taken ----

  lemma {:induction false} WithoutSplits(sent: seq<Outgoing>, id: Id) returns (a: seq<Outgoing>, b: seq<Outgoing>)
    requires Under(sent, id).Some?
    ensures sent == a + [Under(sent, id).value] + b && Without(sent, id) == a + b
  {
    if sent[0].clientId == id {
      a, b := [], sent[1..];
      assert sent == [] + [sent[0]] + b && Without(sent, id) == [] + b;
    } else {
      var a', b' := WithoutSplits(sent[1..], id);
      a, b := [sent[0]] + a', b';
      var o := Under(sent, id).value;
      Regrouped([sent[0]], a' + [o], b');
      Regrouped([sent[0]], a', [o]);
      Regrouped([sent[0]], a', b');
      assert sent == [sent[0]] + sent[1..];
    }
  }

  lemma SplitLines(a: seq<Outgoing>, o: Outgoing, b: seq<Outgoing>)
    ensures LinesOf(a + [o] + b) == LinesOf(a) + o.lines + LinesOf(b)
    ensures LinesOf(a + b) == LinesOf(a) + LinesOf(b)
  {
    LinesOfConcat(a, b);
    LinesOfConcat(a, [o]);
    LinesOfConcat(a + [o], b);
    assert LinesOf([o]) == o.lines + LinesOf([o][1..]) == o.lines;
  }

  /** `s'` is `s` with the message `o` reported taken. */
  ghost predicate Taking(s: State, s': State, o: Outgoing) {
    s' == Tell(s, Taken(o.lines)).(sent := s'.sent) && forall l :: l in o.lines ==> l in s.accepted
  }

  lemma LinesLeft(a: seq<Outgoing>, o: Outgoing, b: seq<Outgoing>)
    ensures multiset(LinesOf(a + [o] + b)) == multiset(LinesOf(a + b)) + multiset(o.lines)
    ensures forall l :: l in LinesOf(a + [o] + b) <==> l in LinesOf(a + b) || l in o.lines
  {
    SplitLines(a, o, b);
  }

  lemma TakenTally(s: State, s': State, a: seq<Outgoing>, o: Outgoing, b: seq<Outgoing>)
    requires multiset(Arrivals(s.told)) == TakenLines(s.told) + multiset(LinesOf(a + [o] + b)) && Taking(s, s', o)
    ensures multiset(Arrivals(s'.told)) == TakenLines(s'.told) + multiset(LinesOf(a + b))
  {
    LinesLeft(a, o, b);
    assert Arrivals(s'.told) == Arrivals(s.told) && TakenLines(s'.told) == TakenLines(s.told) + multiset(o.lines);
    Shifted(TakenLines(s.told), multiset(LinesOf(a + b)), multiset(o.lines));
  }

  lemma Shifted(a: multiset<Id>, b: multiset<Id>, c: multiset<Id>)
    ensures a + (b + c) == (a + c) + b
  {
  }

  /** Lines moved from the owed to the taken stay among the accepted. */
  lemma Moved(accepted: set<Id>, taken: multiset<Id>, owed: seq<Id>, left: seq<Id>, lines: seq<Id>)
    requires forall l :: l in taken ==> l in accepted
    requires forall l :: l in lines ==> l in accepted
    requires forall l :: l in accepted ==> l in taken || l in owed
    requires forall l :: l in owed <==> l in left || l in lines
    ensures forall l :: l in taken + multiset(lines) ==> l in accepted
    ensures forall l :: l in accepted ==> l in taken + multiset(lines) || l in left
  {
  }

  lemma TakenCounts(s: State, s': State, a: seq<Outgoing>, o: Outgoing, b: seq<Outgoing>)
    requires Tells(s) && Counts(s, a + [o] + b, multiset{}) && Taking(s, s', o)
    ensures Tells(s') && Counts(s', a + b, multiset{})
  {
    TakenProper(s, a, o, b);
    TakenTally(s, s', a, o, b);
    LinesLeft(a, o, b);
    Moved(s.accepted, TakenLines(s.told), LinesOf(a + [o] + b), LinesOf(a + b), o.lines);
    assert Ledger(s') == Ledger(s);
  }

  lemma TakenProper(s: State, a: seq<Outgoing>, o: Outgoing, b: seq<Outgoing>)
    requires Tells(s) && Counts(s, a + [o] + b, multiset{})
    requires forall l :: l in o.lines ==> l in s.accepted
    ensures Proper(s.told, Taken(o.lines))
  {
    SplitLines(a, o, b);
    forall l | l in o.lines ensures l !in TakenLines(s.told) {
      assert multiset(o.lines)[l] > 0;
      assert multiset(LinesOf(a + [o] + b)) == multiset(LinesOf(a)) + multiset(o.lines) + multiset(LinesOf(b));
      assert (Ledger(s) + multiset{})[l] <= 1;
    }
  }

  lemma TakenOrders(s: State, s': State, a: seq<Outgoing>, o: Outgoing, b: seq<Outgoing>)
    requires Orders(s, a + [o] + b) && Taking(s, s', o)
    ensures Orders(s', a + b)
  {
    SplitLines(a, o, b);
    OrderedDrop(s.told, LinesOf(a), o.lines, LinesOf(b));
    OrderedAs(s.told, s'.told, LinesOf(a + b));
  }

  /** Of what is owed, the lines of a message taken are owed no more. */
  lemma TakenOwes(s: State, s': State, a: seq<Outgoing>, o: Outgoing, b: seq<Outgoing>)
    requires Owes(s, a + [o] + b, multiset{}) && Taking(s, s', o)
    ensures Owes(s', a + b, multiset{})
  {
    TakenCounts(s, s', a, o, b);
    TakenOrders(s, s', a, o, b);
    forall p | p in a + b ensures Carried(s'.told, p) && Named(s'.told, s'.minted, p) {
      assert p in a + [o] + b;
      assert Carried(s.told, p) && Named(s.told, s.minted, p);
      ContentsSame(s.told, s'.told, p.lines);
    }
  }

  lemma TakenKeeps(c: Config, s: State, id: Id)
    requires Inv(c, s, multiset{}) && Under(s.sent, id).Some?
    ensures Inv(c, Tell(s, Taken(Under(s.sent, id).value.lines)).(sent := Without(s.sent, id)), multiset{})
  {
    var o := Under(s.sent, id).value;
    var a, b := WithoutSplits(s.sent, id);
    var s' := Tell(s, Taken(o.lines)).(sent := a + b);
    TakenAccepted(s, a, o, b);
    Regrouped(a + [o], b, s.waiting);
    Regrouped(a, b, s.waiting);
    TakenOwes(s, s', a, o, b + s.waiting);
    TakenTabled(s, s', a, o, b);
  }

  lemma TakenAccepted(s: State, a: seq<Outgoing>, o: Outgoing, b: seq<Outgoing>)
    requires Tabled(s) && s.sent == a + [o] + b
    ensures forall l :: l in o.lines ==> l in s.accepted
  {
    LinesLeft(a, o, b);
  }

  lemma TakenTabled(s: State, s': State, a: seq<Outgoing>, o: Outgoing, b: seq<Outgoing>)
    requires Tabled(s) && s.sent == a + [o] + b && s' == Tell(s, Taken(o.lines)).(sent := a + b)
    ensures Tabled(s')
  {
    DistinctDrop(a, o, b);
    LinesLeft(a, o, b);
    assert HeldLines(s'.told) == HeldLines(s.told);
  }

  lemma DistinctDrop(a: seq<Outgoing>, o: Outgoing, b: seq<Outgoing>)
    requires DistinctNames(a + [o] + b)
    ensures DistinctNames(a + b)
  {
    var all, left := a + [o] + b, a + b;
    forall i, j | 0 <= i < j < |left| ensures left[i].clientId != left[j].clientId {
      var i' := if i < |a| then i else i + 1;
      var j' := if j < |a| then j else j + 1;
      assert all[i'] == left[i] && all[j'] == left[j];
    }
  }

  // ---- A turn completed, and the drain behind it ----

  /** A completion heard: no turn, and what was sent or waiting still owed. */
  lemma CompletionOwes(c: Config, s: State)
    requires Inv(c, s, multiset{}) && s.turnId.Some?
    ensures var over := Pause(Tell(s, TurnOver).(turnId := None));
            Owes(over, s.sent + s.waiting, multiset{}) && HeldLines(over.told) == []
  {
    OwesTold(s, Tell(s, TurnOver).(turnId := None), s.sent + s.waiting, multiset{});
    OwesPaused(Tell(s, TurnOver).(turnId := None), s.sent + s.waiting, multiset{});
  }

  lemma PauseInv(c: Config, s: State, extra: multiset<Id>)
    requires Inv(c, s, extra)
    ensures Inv(c, Pause(s), extra)
  {
    OwesPaused(s, s.sent + s.waiting, extra);
  }

  /** A signal about to be acted on, taken off the queue. */
  lemma PopInv(c: Config, s: State)
    requires Inv(c, s, multiset{}) && s.signals != []
    ensures Inv(c, s.(signals := s.signals[1..]), IdsOf(s.signals[0]))
  {
    var popped := s.(signals := s.signals[1..]);
    assert Ledger(popped) + IdsOf(s.signals[0]) == Ledger(s) + multiset{};
  }

  /** The ids of a signal not acted on as a message are given up. */
  lemma DropIds(c: Config, s: State, extra: multiset<Id>)
    requires Inv(c, s, extra)
    ensures Inv(c, s, multiset{})
  {
    forall x ensures (Ledger(s) + multiset{})[x] <= 1 {
      assert (Ledger(s) + extra)[x] <= 1;
    }
  }

  /** With nothing owed, every line read was taken. */
  lemma NothingOwed(c: Config, s: State)
    requires Inv(c, s, multiset{}) && s.turnId.None?
    ensures AllAnswered(s)
  {
    assert s.sent + s.waiting == [];
  }

  lemma StopKeeps(c: Config, s: State)
    requires Inv(c, s, multiset{}) && s.turnId.Some?
    ensures Inv(c, Pause(Tell(s, StopTaken).(stopping := true)), multiset{})
  {
    OwesTold(s, Tell(s, StopTaken).(stopping := true), s.sent + s.waiting, multiset{});
    PauseInv(c, Tell(s, StopTaken).(stopping := true), multiset{});
  }

  lemma FoundKeeps(c: Config, s: State)
    requires Inv(c, s, multiset{})
    ensures Inv(c, Tell(s, FoundEmpty), multiset{})
  {
    OwesTold(s, Tell(s, FoundEmpty), s.sent + s.waiting, multiset{});
    TabledSame(s, Tell(s, FoundEmpty));
  }

  lemma EndedGood(c: Config, s: State, end: End)
    requires Inv(c, s, multiset{}) && EndProper(c, s, end)
    ensures Good(c, Ended(s, end))
  {
  }

  /** The queue found empty: said over only where everything read was answered. */
  lemma CallOverKeeps(c: Config, s: State)
    requires Inv(c, s, multiset{}) && s.signals == []
    ensures Good(c, CallOver(c, Tell(s, FoundEmpty))) && Resting(c, CallOver(c, Tell(s, FoundEmpty)))
  {
    var found := Tell(s, FoundEmpty);
    FoundKeeps(c, s);
    if s.turnId.Some? {
      assert CallOver(c, found) == On(found);
    } else {
      NothingOwed(c, found);
      NotStopping(c, found);
      if c.warm {
        IdleKeeps(c, found);
      } else {
        EndedGood(c, found, TurnEnded);
      }
    }
  }

  lemma NotStopping(c: Config, s: State)
    requires Inv(c, s, multiset{}) && s.turnId.None?
    ensures !s.stopping
  {
  }

  lemma IdleKeeps(c: Config, s: State)
    requires Inv(c, s, multiset{}) && AllAnswered(s) && s.told.Then? && s.told.now.FoundEmpty?
    ensures c.warm ==> Inv(c, Tell(s, SaidIdle).(warm := true), multiset{})
  {
    assert Proper(s.told, SaidIdle) by {
      assert RunningTurn(s.told) == s.turnId;
    }
    var said := Tell(s, SaidIdle).(warm := true);
    OwesTold(s, said, s.sent + s.waiting, multiset{});
    TabledSame(s, said);
  }

  /** A launch configured warm is warm exactly while no turn runs, and any other is never warm and rests on a turn. */
  ghost predicate Resting(c: Config, r: Step) {
    r.On? ==> r.s.turnId.Some? || (c.warm && r.s.warm)
  }

  /** A completion that leaves messages unanswered. */
  lemma ResendKeeps(c: Config, s: State, over: State)
    requires Inv(c, s, multiset{}) && s.turnId.Some? && s.sent + s.waiting != [] && !s.stopping
    requires over == Pause(Tell(s, TurnOver).(turnId := None))
    ensures var r := StartTurn(over.(sent := [], waiting := []), s.sent + s.waiting);
      Good(c, r) && (r.On? ==> r.s.turnId.Some?)
  {
    CompletionOwes(c, s);
    var cleared := over.(sent := [], waiting := []);
    assert Owes(cleared, s.sent + s.waiting, multiset{}) by {
      assert Ledger(cleared) == Ledger(over);
    }
    StartTurnKeeps(c, cleared, s.sent + s.waiting);
  }

  lemma CutOffGood(c: Config, s: State, end: End)
    requires Owes(s, s.sent + s.waiting, multiset{}) && (end == Stopped || end == FailedLaunch)
    ensures Good(c, Ended(s, end))
  {
  }

  /** A completion that leaves nothing unanswered. */
  lemma ClearedKeeps(c: Config, s: State, over: State)
    requires Inv(c, s, multiset{}) && s.turnId.Some? && s.sent + s.waiting == [] && !s.stopping
    requires over == Pause(Tell(s, TurnOver).(turnId := None))
    ensures over.(sent := [], waiting := []) == over && Inv(c, over, multiset{})
  {
    CompletionOwes(c, s);
    assert s.sent == [] && s.waiting == [];
    assert over.sent == [] && over.waiting == [] && over.sent + over.waiting == s.sent + s.waiting;
    assert over.accepted == s.accepted && over.turnId.None? && over.warm == s.warm && over.stopping == s.stopping;
  }

  lemma TakeTurnCompletedKeeps(c: Config, s: State, turnId: string, status: TurnStatus)
    requires Inv(c, s, multiset{})
    ensures Good(c, TakeTurnCompleted(c, s, turnId, status))
    ensures s.turnId == Some(turnId) ==> Resting(c, TakeTurnCompleted(c, s, turnId, status))
    decreases Pending(s), 1
  {
    if s.turnId == Some(turnId) {
      var over := Pause(Tell(s, TurnOver).(turnId := None));
      CompletionOwes(c, s);
      PausePends(Tell(s, TurnOver).(turnId := None));
      assert over.sent == s.sent && over.waiting == s.waiting;
      if s.stopping || status == Failed || status == Interrupted {
        CutOffGood(c, over, if s.stopping then Stopped else FailedLaunch);
      } else if s.sent + s.waiting != [] {
        ResendKeeps(c, s, over);
      } else {
        ClearedKeeps(c, s, over);
        DrainKeeps(c, over);
      }
    }
  }

  lemma DrainKeeps(c: Config, s: State)
    requires Inv(c, s, multiset{})
    ensures Good(c, Drain(c, s)) && Resting(c, Drain(c, s))
    decreases Pending(s), 0
  {
    var looked := Pause(s);
    PausePends(s);
    PauseInv(c, s, multiset{});
    if looked.signals == [] {
      CallOverKeeps(c, looked);
    } else {
      var popped := looked.(signals := looked.signals[1..]);
      PopInv(c, looked);
      TakeSignalKeeps(c, popped, looked.signals[0]);
      var done := TakeSignal(c, popped, looked.signals[0]);
      if done.On? {
        DrainKeeps(c, done.s);
      }
    }
  }

  lemma TakeSignalKeeps(c: Config, s: State, signal: Signal)
    requires Inv(c, s, IdsOf(signal))
    ensures Good(c, TakeSignal(c, s, signal)) && Settles(c, s, TakeSignal(c, s, signal))
    decreases Pending(s), 2
  {
    DropIds(c, s, IdsOf(signal));
    if signal.TurnCompleted? {
      TakeTurnCompletedKeeps(c, s, signal.turnId, signal.status);
    } else if signal.LineRead? {
      LineKeeps(c, s, signal.line);
    } else {
      OtherSignalKeeps(c, s, signal);
    }
  }

  lemma OtherSignalKeeps(c: Config, s: State, signal: Signal)
    requires Inv(c, s, multiset{}) && !signal.TurnCompleted? && !signal.LineRead?
    ensures Good(c, TakeSignal(c, s, signal)) && Settles(c, s, TakeSignal(c, s, signal))
  {
    match signal
    case InputClosed => InputClosedKeeps(c, s);
    case MessageTaken(clientId) => MessageTakenKeeps(c, s, clientId);
    case _ => EndedGood(c, s, FailedLaunch);
  }

  lemma LineKeeps(c: Config, s: State, line: Line)
    requires Inv(c, s, IdsOf(LineRead(line))) && Inv(c, s, multiset{})
    ensures Good(c, TakeLine(c, s, line)) && Settles(c, s, TakeLine(c, s, line))
  {
    match line
    case Message(uuid, content) => MessageKeeps(c, s, uuid, content);
    case Stop(launch) => StopLineKeeps(c, s, launch);
    case Retire => RetireKeeps(c, s);
    case _ => assert TakeLine(c, s, line) == On(s);
  }

  /** A step that goes on leaves a turn running, or a launch gone warm over it, or both as they were. */
  ghost predicate Settles(c: Config, s: State, r: Step) {
    r.On? ==> r.s.turnId.Some? || (c.warm && r.s.warm) || (r.s.turnId == s.turnId && r.s.warm == s.warm)
  }

  lemma StoppedGood(c: Config, s: State)
    requires Inv(c, s, multiset{}) && (s.stopping || s.turnId.None?)
    ensures Good(c, Ended(s, Stopped))
  {
  }

  lemma StopLineKeeps(c: Config, s: State, launch: Option<nat>)
    requires Inv(c, s, multiset{})
    ensures var r := TakeLine(c, s, Stop(launch)); Good(c, r) && Settles(c, s, r)
  {
    var r := TakeLine(c, s, Stop(launch));
    if launch.Some? && launch.value != c.firstSequence {
      assert r == On(s);
    } else if s.turnId.None? {
      StoppedGood(c, s);
      assert r == Ended(s, Stopped);
    } else {
      var after := Pause(Tell(s, StopTaken).(stopping := true));
      StopKeeps(c, s);
      StoppedGood(c, after);
      assert after.turnId == s.turnId;
      assert r == On(after) || r == Ended(after, Stopped);
    }
  }

  lemma RetireKeeps(c: Config, s: State)
    requires Inv(c, s, multiset{})
    ensures var r := TakeLine(c, s, Retire); Good(c, r) && Settles(c, s, r)
  {
    if s.turnId.None? {
      NothingOwed(c, s);
    }
  }

  lemma InputClosedKeeps(c: Config, s: State)
    requires Inv(c, s, multiset{})
    ensures var r := TakeSignal(c, s, InputClosed); Good(c, r) && Settles(c, s, r)
  {
    if s.turnId.None? {
      NothingOwed(c, s);
    }
  }

  lemma MessageTakenKeeps(c: Config, s: State, clientId: Id)
    requires Inv(c, s, multiset{})
    ensures var r := TakeSignal(c, s, MessageTaken(clientId)); Good(c, r) && Settles(c, s, r)
  {
    if Under(s.sent, clientId).Some? {
      TakenKeeps(c, s, clientId);
    }
  }

  // ---- Every run ----

  /** At a rest point of the loop, a launch configured warm is warm exactly while no turn runs; any other never is. */
  predicate AtRest(c: Config, s: State) {
    s.warm <==> c.warm && s.turnId.None?
  }

  lemma IterateKeeps(c: Config, s: State)
    requires Inv(c, s, multiset{}) && AtRest(c, s)
    ensures GoodRun(c, Iterate(c, s))
  {
    if s.signals != [] {
      TakenKept(c, s);
    } else {
      WaitedKeeps(c, s);
    }
  }

  lemma TakenKept(c: Config, s: State)
    requires Inv(c, s, multiset{}) && AtRest(c, s) && s.signals != []
    ensures GoodRun(c, Iterate(c, s))
  {
    PopInv(c, s);
    TakeSignalKeeps(c, s.(signals := s.signals[1..]), s.signals[0]);
  }

  lemma WaitedIs(c: Config, s: State)
    requires s.signals == []
    ensures Iterate(c, s) == Running(Pause(s)) || (s.warm && Iterate(c, s) == Finished(Pause(s), Idled))
    ensures Pause(s).turnId == s.turnId && Pause(s).warm == s.warm
  {
  }

  lemma LapsedKeeps(c: Config, s: State)
    requires Inv(c, s, multiset{}) && s.warm
    ensures GoodRun(c, Finished(s, Idled))
  {
    NothingOwed(c, s);
  }

  lemma WaitedKeeps(c: Config, s: State)
    requires Inv(c, s, multiset{}) && AtRest(c, s) && s.signals == []
    ensures GoodRun(c, Iterate(c, s))
  {
    PauseInv(c, s, multiset{});
    WaitedIs(c, s);
    if s.warm {
      LapsedKeeps(c, Pause(s));
    }
  }

  /** What holds of a launch at each rest point, and where it finished. */
  ghost predicate GoodRun(c: Config, r: Outcome) {
    match r
    case Running(s) => Inv(c, s, multiset{}) && AtRest(c, s)
    case Finished(s, end) =>
      WellTold(s.told) && (end != FailedLaunch ==> Owes(s, s.sent + s.waiting, multiset{}) && EndProper(c, s, end))
  }

  lemma StartKeeps(c: Config, script: seq<Moment>)
    requires NoRepeat(ScriptIds(script))
    ensures Inv(c, Start(c, script), multiset{})
  {
    var s := Start(c, script);
    assert s.sent + s.waiting == [];
    assert Ledger(s) + multiset{} == ScriptIds(script);
  }

  /**
   * The controller's invariant holds at every rest point of every run, and every run that finishes finishes properly,
   * for any signals and answers the world brings, given only that the service gives no two lines one id.
   */
  lemma {:induction false} EveryRun(c: Config, script: seq<Moment>, n: nat)
    requires NoRepeat(ScriptIds(script))
    ensures GoodRun(c, After(c, Start(c, script), n))
  {
    if n == 0 {
      StartKeeps(c, script);
    } else {
      EveryRun(c, script, n - 1);
      var r := After(c, Start(c, script), n - 1);
      if r.Running? {
        IterateKeeps(c, r.s);
      }
    }
  }
}
