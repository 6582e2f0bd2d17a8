/** Runs from a launch's start that come to the states its theorems speak of. */
module LaunchRuns {
  import opened Basics
  import opened Launch
  import opened LaunchHistory
  import opened LaunchProofs
  import opened LaunchTheorems
  import opened LaunchIdles

  function Asked(uuid: string): Signal {
    LineRead(Message(Some(uuid), []))
  }

  /** A wait that brings nothing but what is named. */
  function Brings(arrivals: seq<Signal>, answer: Answer): Moment {
    Moment(arrivals, answer, false)
  }

  const QUIET := Answered(None)

  // ---- Stepping ----

  /** One more round, acting on a signal queued. */
  lemma Goes(c: Config, start: State, n: nat, s: State, t: State)
    requires After(c, start, n) == Running(s) && s.signals != []
    requires TakeSignal(c, s.(signals := s.signals[1..]), s.signals[0]) == On(t)
    ensures After(c, start, n + 1) == Running(t)
  {
  }

  /** A message read with no turn running, the turn app-server answers with begun. */
  lemma TurnBegins(c: Config, s: State, uuid: string, turn: string)
    requires s.turnId.None? && s.sent == [] && s.script != [] && s.script[0].answer == Answered(Some(turn))
    ensures var r := TakeSignal(c, s, Asked(uuid));
            && r.On? && r.s.turnId == Some(turn) && r.s.sent == [Alone(Given(uuid), [])] && r.s.waiting == s.waiting
            && r.s.stopping == s.stopping && r.s.script == s.script[1..]
            && r.s.signals == s.signals + s.script[0].arrivals && Arrivals(r.s.told) == Arrivals(s.told) + [Given(uuid)]
            && Idles(r.s.told) == 0
  {
    var o, read := Alone(Given(uuid), []), ReadMessage(s, Some(uuid), []);
    assert Arrivals(read.told) == Arrivals(s.told) + [Given(uuid)];
    var asked := AskTurn(read, [o]);
    assert Merged([o], read.minted) == o && asked.minted == read.minted;
    var begun := Tell(Pause(asked), Began(turn)).(turnId := Some(turn), sent := [o]);
    assert Arrivals(begun.told) == Arrivals(asked.told) == Arrivals(read.told);
    AcceptingPends(begun, o.lines);
    AcceptingArrivals(begun, o.lines);
    AcceptingIdles(begun, o.lines);
  }

  lemma OneTaken(c: Config, s: State, uuid: string)
    requires s.sent == [Alone(Given(uuid), [])]
    ensures var r := TakeSignal(c, s, MessageTaken(Given(uuid)));
            r == On(Tell(s, Taken([Given(uuid)])).(sent := []))
  {
    assert s.sent[1..] == [];
  }

  /** The launch's first line, read once it arrives. */
  lemma Begun(c: Config, script: seq<Moment>, uuid: string, turn: string)
    requires |script| >= 2 && script[0] == Brings([Asked(uuid)], QUIET) && script[1].answer == Answered(Some(turn))
    ensures var r := After(c, Start(c, script), 2);
            && r.Running? && r.s.turnId == Some(turn) && r.s.sent == [Alone(Given(uuid), [])] && r.s.waiting == []
            && !r.s.stopping && r.s.script == script[2..] && r.s.signals == script[1].arrivals
            && Arrivals(r.s.told) == [Given(uuid)]
  {
    var start := Start(c, script);
    var s := Pause(start);
    assert After(c, start, 0) == Running(start) && After(c, start, 1) == Running(s);
    assert s.signals == [Asked(uuid)] && s.signals[1..] == [];
    TurnBegins(c, s.(signals := []), uuid, turn);
    Goes(c, start, 1, s, TakeSignal(c, s.(signals := []), Asked(uuid)).s);
  }

  // ---- A steer that overtakes another ----

  function OvertakingScript(a: string, b: string, d: string): seq<Moment> {
    [Brings([Asked(a)], QUIET), Brings([Asked(b), Asked(d)], Answered(Some("t"))),
     Brings([], Refused(Some(INVALID_REQUEST), None)), Brings([], QUIET)]
  }

  /**
   * From a launch's start: a turn refuses the steer of `b` and accepts that of `d`, and `d` then stands ahead of `b`.
   */
  lemma OvertakingRun(c: Config, a: string, b: string, d: string)
    requires a != b && a != d && b != d
    ensures NoRepeat(ScriptIds(OvertakingScript(a, b, d)))
    ensures var r := After(c, Start(c, OvertakingScript(a, b, d)), 4);
            && r.Running? && Arrivals(r.s.told) == [Given(a), Given(b), Given(d)]
            && LinesOf(r.s.sent) + LinesOf(r.s.waiting) == [Given(a), Given(d), Given(b)]
            && !InOrder(LinesOf(r.s.sent) + LinesOf(r.s.waiting), Arrivals(r.s.told))
  {
    OvertakingIds(a, b, d);
    LinesStand(a, b, d);
    var script := OvertakingScript(a, b, d);
    var start := Start(c, script);
    Begun(c, script, a, "t");
    assert script[2..] == [script[2], script[3]];
    OvertakingFrom(c, start, After(c, start, 2).s, a, b, d);
  }

  lemma OvertakingFrom(c: Config, start: State, s: State, a: string, b: string, d: string)
    requires a != b && a != d && b != d && After(c, start, 2) == Running(s) && s.turnId.Some?
    requires s.sent == [Alone(Given(a), [])] && s.waiting == [] && s.signals == [Asked(b), Asked(d)]
    requires s.script == [Brings([], Refused(Some(INVALID_REQUEST), None)), Brings([], QUIET)]
    requires Arrivals(s.told) == [Given(a)]
    ensures var r := After(c, start, 4);
            && r.Running? && Arrivals(r.s.told) == [Given(a), Given(b), Given(d)]
            && LinesOf(r.s.sent) + LinesOf(r.s.waiting) == [Given(a), Given(d), Given(b)]
  {
    var refusal := Brings([], Refused(Some(INVALID_REQUEST), None));
    var t := HeldNext(c, start, s, b, [Asked(d)], [Brings([], QUIET)]);
    var u := TakenNext(c, start, t, a, d);
    ReadInOrder(a, b, d, Arrivals(s.told), Arrivals(t.told), Arrivals(u.told));
    LinesStand(a, b, d);
    assert u.waiting == [Alone(Given(b), [])];
  }

  lemma ReadInOrder(a: string, b: string, d: string, first: seq<Id>, second: seq<Id>, third: seq<Id>)
    requires first == [Given(a)] && second == first + [Given(b)] && third == second + [Given(d)]
    ensures third == [Given(a), Given(b), Given(d)]
  {
  }

  /** The third round, its steer refused. */
  lemma HeldNext(c: Config, start: State, s: State, b: string, later: seq<Signal>, rest: seq<Moment>) returns (t: State)
    requires After(c, start, 2) == Running(s) && s.turnId.Some? && s.signals == [Asked(b)] + later
    requires s.script == [Brings([], Refused(Some(INVALID_REQUEST), None))] + rest
    ensures After(c, start, 3) == Running(t) && t.turnId == s.turnId && t.sent == s.sent && t.signals == later
    ensures t.script == rest && t.waiting == s.waiting + [Alone(Given(b), [])]
    ensures Arrivals(t.told) == Arrivals(s.told) + [Given(b)]
  {
    var s' := s.(signals := later);
    assert s.signals[1..] == later && s.script[1..] == rest && later + [] == later;
    HeldSteer(c, s', b, []);
    t := TakeLine(c, s', Message(Some(b), [])).s;
    Goes(c, start, 2, s, t);
  }

  /** The fourth, its steer accepted. */
  lemma TakenNext(c: Config, start: State, t: State, a: string, d: string) returns (u: State)
    requires After(c, start, 3) == Running(t) && t.turnId.Some? && t.signals == [Asked(d)] && a != d
    requires t.script == [Brings([], QUIET)] && t.sent == [Alone(Given(a), [])]
    ensures After(c, start, 4) == Running(u) && u.waiting == t.waiting
    ensures u.sent == [Alone(Given(a), []), Alone(Given(d), [])]
    ensures Arrivals(u.told) == Arrivals(t.told) + [Given(d)]
  {
    var t' := t.(signals := []);
    assert t.signals[1..] == [];
    TakenSteer(c, t', d, []);
    u := TakeLine(c, t', Message(Some(d), [])).s;
    assert t.sent + [Alone(Given(d), [])] == [Alone(Given(a), []), Alone(Given(d), [])];
    Goes(c, start, 3, t, u);
  }

  lemma LinesStand(a: string, b: string, d: string)
    requires a != b && a != d && b != d
    ensures LinesOf([Alone(Given(a), []), Alone(Given(d), [])]) == [Given(a), Given(d)]
    ensures LinesOf([Alone(Given(b), [])]) == [Given(b)]
    ensures !InOrder([Given(a), Given(d), Given(b)], [Given(a), Given(b), Given(d)])
  {
    LinesAdd([], Alone(Given(b), []));
    LinesAdd([Alone(Given(a), [])], Alone(Given(d), []));
    LinesAdd([], Alone(Given(a), []));
    assert [] + [Alone(Given(a), [])] == [Alone(Given(a), [])] && [] + [Alone(Given(b), [])] == [Alone(Given(b), [])];
    assert [Alone(Given(a), [])] + [Alone(Given(d), [])] == [Alone(Given(a), []), Alone(Given(d), [])];
    var lines, order := [Given(a), Given(d), Given(b)], [Given(a), Given(b), Given(d)];
    assert !Before(lines[1], lines[2], order);
  }

  // ---- IDLE said twice ----

  function IdleTwiceScript(a: string, b: string): seq<Moment> {
    [Brings([Asked(a)], QUIET),
     Brings([MessageTaken(Given(a)), TurnCompleted("t", Completed), Asked(b), MessageTaken(Given(b)),
             TurnCompleted("u", Completed)], Answered(Some("t"))),
     Brings([], QUIET), Brings([], QUIET), Brings([], Answered(Some("u")))]
  }

  /** From a warm launch's start: a message behind a completion is answered within its drain, and IDLE is said twice. */
  lemma IdleTwiceRun(c: Config, a: string, b: string)
    requires c.warm && a != b
    ensures NoRepeat(ScriptIds(IdleTwiceScript(a, b)))
    ensures var r := After(c, Start(c, IdleTwiceScript(a, b)), 4);
            r.Running? && r.s.turnId.None? && Idles(r.s.told) == 2
  {
    IdleTwiceIds(a, b);
    var script := IdleTwiceScript(a, b);
    var start := Start(c, script);
    Begun(c, script, a, "t");
    var s := After(c, start, 2).s;
    assert script[2..] == [script[2], script[3], script[4]];
    var t := TakenThird(c, start, s, a);
    IdlesFourth(c, start, t, b);
  }

  /** The third round, which hears that the message was taken. */
  lemma TakenThird(c: Config, start: State, s: State, a: string) returns (t: State)
    requires After(c, start, 2) == Running(s) && s.signals != [] && s.signals[0] == MessageTaken(Given(a))
    requires s.sent == [Alone(Given(a), [])]
    ensures After(c, start, 3) == Running(t)
    ensures t == Tell(s, Taken([Given(a)])).(sent := [], signals := s.signals[1..])
  {
    OneTaken(c, s.(signals := s.signals[1..]), a);
    t := Tell(s.(signals := s.signals[1..]), Taken([Given(a)])).(sent := []);
    Goes(c, start, 2, s, t);
  }

  lemma IdlesFourth(c: Config, start: State, t: State, b: string)
    requires c.warm && After(c, start, 3) == Running(t)
    requires t.turnId == Some("t") && t.sent == [] && t.waiting == [] && !t.stopping
    requires t.signals
      == [TurnCompleted("t", Completed), Asked(b), MessageTaken(Given(b)), TurnCompleted("u", Completed)]
    requires t.script == [Brings([], QUIET), Brings([], QUIET), Brings([], Answered(Some("u")))]
    ensures var r := After(c, start, 4); r.Running? && r.s.turnId.None? && Idles(r.s.told) == 2
  {
    var t' := t.(signals := t.signals[1..]);
    var over := Tell(t', TurnOver).(turnId := None, script := t.script[1..]);
    Completes(c, t', "t", over);
    IdlesTwice(c, over, b);
    Goes(c, start, 3, t, Drain(c, over).s);
  }

  /** A completion with nothing unanswered is its drain. */
  lemma Completes(c: Config, s: State, turn: string, over: State)
    requires s.turnId == Some(turn) && s.sent == [] && s.waiting == [] && !s.stopping
    requires over == Pause(Tell(s, TurnOver).(turnId := None))
    ensures TakeSignal(c, s, TurnCompleted(turn, Completed)) == Drain(c, over)
  {
    CompletionDrains(c, s, turn, over);
  }

  lemma CompletionDrains(c: Config, s: State, turn: string, over: State)
    requires s.turnId == Some(turn) && s.sent == [] && s.waiting == [] && !s.stopping
    requires over == Pause(Tell(s, TurnOver).(turnId := None))
    ensures TakeTurnCompleted(c, s, turn, Completed) == Drain(c, over)
  {
    assert s.sent + s.waiting == [];
    assert over.(sent := [], waiting := []) == over;
  }

  /** A drain that finds a message, its being taken and its turn's completion behind one another. */
  lemma IdlesTwice(c: Config, s: State, b: string)
    requires c.warm && s.turnId.None? && s.sent == [] && s.waiting == [] && !s.stopping
    requires s.signals == [Asked(b), MessageTaken(Given(b)), TurnCompleted("u", Completed)]
    requires s.script == [Brings([], QUIET), Brings([], Answered(Some("u")))]
    ensures Drain(c, s).On? && Drain(c, s).s.turnId.None? && Idles(Drain(c, s).s.told) == 2
  {
    var looked := Pause(s);
    assert looked.signals == s.signals && looked.script == [Brings([], Answered(Some("u")))];
    var popped := looked.(signals := s.signals[1..]);
    TurnBegins(c, popped, b, "u");
    var t := TakeSignal(c, popped, Asked(b)).s;
    assert Drain(c, s) == Drain(c, t);
    assert t.script == [] && t.signals == s.signals[1..];
    var u := Tell(t.(signals := t.signals[1..]), Taken([Given(b)])).(sent := []);
    OneTaken(c, t.(signals := t.signals[1..]), b);
    assert Drain(c, t) == Drain(c, u);
    assert u.signals == [TurnCompleted("u", Completed)];
    NestedCompletionIdlesAgain(c, u, "u");
    TwoIdles(u.told);
  }

  lemma TwoIdles(h: History)
    ensures var over := Then(h, TurnOver);
            var said := Then(Then(over, FoundEmpty), SaidIdle);
            Idles(Then(Then(said, FoundEmpty), SaidIdle)) == Idles(h) + 2
  {
    var found := Then(Then(h, TurnOver), FoundEmpty);
    var said := Then(found, SaidIdle);
    var again := Then(said, FoundEmpty);
    assert Idles(found) == Idles(found.before) == Idles(h);
    assert Idles(said) == Idles(found) + 1 && Idles(again) == Idles(said);
    assert Idles(Then(again, SaidIdle)) == Idles(again) + 1;
  }

  // ---- A closed input a warm launch outlives ----

  function ClosedScript(a: string): seq<Moment> {
    [Brings([Asked(a)], QUIET),
     Brings([MessageTaken(Given(a)), InputClosed, TurnCompleted("t", Completed)], Answered(Some("t")))]
  }

  /** The launch is about to act on its input's closing, with a turn running. */
  predicate ClosingInTurn(r: Outcome) {
    r.Running? && r.s.turnId.Some? && r.s.signals != [] && r.s.signals[0].InputClosed?
  }

  /** A launch that took its input's closing with a turn running, and later rests with none. */
  ghost predicate Outlives(c: Config, script: seq<Moment>, n: nat) {
    var r := After(c, Start(c, script), n);
    r.Running? && r.s.turnId.None? && exists m: nat :: m < n && ClosingInTurn(After(c, Start(c, script), m))
  }

  lemma ClosedRun(c: Config, a: string)
    requires c.warm
    ensures Outlives(c, ClosedScript(a), 5)
  {
    var script := ClosedScript(a);
    var start := Start(c, script);
    Begun(c, script, a, "t");
    var s := After(c, start, 2).s;
    var t := TakenThird(c, start, s, a);
    assert t.signals == [InputClosed, TurnCompleted("t", Completed)] && script[2..] == [];
    assert ClosingInTurn(After(c, start, 3));
    var u := t.(signals := t.signals[1..]);
    Goes(c, start, 3, t, u);
    ClosesFifth(c, start, u);
  }

  lemma ClosesFifth(c: Config, start: State, u: State)
    requires c.warm && After(c, start, 4) == Running(u) && u.turnId == Some("t")
    requires u.sent == [] && u.waiting == [] && !u.stopping
    requires u.signals == [TurnCompleted("t", Completed)] && u.script == []
    ensures var r := After(c, start, 5); r.Running? && r.s.turnId.None?
  {
    var u' := u.(signals := []);
    var over := Tell(u', TurnOver).(turnId := None);
    assert u.signals[1..] == [];
    Completes(c, u', "t", over);
    NothingToDrain(c, over);
    Goes(c, start, 4, u, Drain(c, over).s);
  }

  /** A launch that, where it rests, rests with a turn. */
  predicate RestsOnTurn(r: Outcome) {
    r.Running? ==> r.s.turnId.Some?
  }

  /** Off warm, a launch that rests with a turn rests with one for as long as it runs. */
  lemma {:induction false} KeepsTurn(c: Config, script: seq<Moment>, m: nat, n: nat)
    requires NoRepeat(ScriptIds(script)) && !c.warm && m <= n && RestsOnTurn(After(c, Start(c, script), m))
    ensures RestsOnTurn(After(c, Start(c, script), n))
    decreases n
  {
    if m < n {
      KeepsTurn(c, script, m, n - 1);
      NextKeepsTurn(c, script, n - 1, n);
    }
  }

  lemma NextKeepsTurn(c: Config, script: seq<Moment>, k: nat, n: nat)
    requires NoRepeat(ScriptIds(script)) && !c.warm && n == k + 1 && RestsOnTurn(After(c, Start(c, script), k))
    ensures RestsOnTurn(After(c, Start(c, script), n))
  {
    EveryRun(c, script, k);
    OneMore(c, Start(c, script), k);
    RoundKeepsTurn(c, After(c, Start(c, script), k));
  }

  lemma OneMore(c: Config, start: State, n: nat)
    ensures var r := After(c, start, n); After(c, start, n + 1) == if r.Running? then Iterate(c, r.s) else r
  {
  }

  lemma RoundKeepsTurn(c: Config, r: Outcome)
    requires !c.warm && GoodRun(c, r) && (r.Running? ==> r.s.turnId.Some?)
    ensures r.Running? ==> var next := Iterate(c, r.s); next.Running? ==> next.s.turnId.Some?
  {
    if r.Running? && r.s.signals != [] {
      var s := r.s;
      PopInv(c, s);
      TakeSignalKeeps(c, s.(signals := s.signals[1..]), s.signals[0]);
    }
  }

  /** A launch whose input closes with a turn running ends with its turns exactly where it is not configured warm. */
  lemma EndsWithTurnExactly(c: Config)
    ensures (forall script, n: nat :: NoRepeat(ScriptIds(script)) ==> !Outlives(c, script, n)) <==> !c.warm
  {
    if c.warm {
      ClosedRun(c, "a");
      ClosedIds("a");
    } else {
      forall script, n: nat | NoRepeat(ScriptIds(script)) ensures !Outlives(c, script, n) {
        if Outlives(c, script, n) {
          var m: nat :| m < n && ClosingInTurn(After(c, Start(c, script), m));
          KeepsTurn(c, script, m, n);
        }
      }
    }
  }

  lemma ClosedIds(a: string)
    ensures NoRepeat(ScriptIds(ClosedScript(a)))
  {
    var script := ClosedScript(a);
    OneAsked(a, []);
    NoIds(script[1].arrivals);
    QuietAfter(script);
    assert [Asked(a)] + [] == [Asked(a)];
  }

  lemma OvertakingIds(a: string, b: string, d: string)
    requires a != b && a != d && b != d
    ensures NoRepeat(ScriptIds(OvertakingScript(a, b, d)))
  {
    var script := OvertakingScript(a, b, d);
    OneAsked(a, []);
    OneAsked(d, []);
    OneAsked(b, [Asked(d)]);
    assert [Asked(a)] + [] == [Asked(a)] && [Asked(d)] + [] == [Asked(d)];
    assert [Asked(b)] + [Asked(d)] == [Asked(b), Asked(d)];
    QuietAfter(script);
  }

  lemma IdleTwiceIds(a: string, b: string)
    requires a != b
    ensures NoRepeat(ScriptIds(IdleTwiceScript(a, b)))
  {
    var script := IdleTwiceScript(a, b);
    QuietAfter(script);
    OneAsked(a, []);
    assert [Asked(a)] + [] == [Asked(a)];
    OneAmong([MessageTaken(Given(a)), TurnCompleted("t", Completed)], b,
             [MessageTaken(Given(b)), TurnCompleted("u", Completed)], script[1].arrivals);
  }

  /** Only the first two moments bring anything. */
  lemma QuietAfter(script: seq<Moment>)
    requires |script| >= 2 && forall i :: 2 <= i < |script| ==> script[i].arrivals == []
    ensures ScriptIds(script) == SignalIds(script[0].arrivals) + SignalIds(script[1].arrivals)
  {
    QuietIds(script[2..]);
    IdsAfter(script);
    IdsAfter(script[1..]);
    assert script[1..][1..] == script[2..];
  }

  lemma OneAmong(before: seq<Signal>, uuid: string, after: seq<Signal>, signals: seq<Signal>)
    requires forall i :: 0 <= i < |before| ==> IdsOf(before[i]) == multiset{}
    requires forall i :: 0 <= i < |after| ==> IdsOf(after[i]) == multiset{}
    requires signals == before + [Asked(uuid)] + after
    ensures SignalIds(signals) == multiset{Given(uuid)}
  {
    NoIds(before);
    NoIds(after);
    OneAsked(uuid, after);
    Regrouped(before, [Asked(uuid)], after);
    SignalIdsConcat(before, [Asked(uuid)] + after);
  }

  lemma OneAsked(uuid: string, rest: seq<Signal>)
    ensures SignalIds([Asked(uuid)] + rest) == multiset{Given(uuid)} + SignalIds(rest)
  {
    assert ([Asked(uuid)] + rest)[1..] == rest;
  }

  lemma IdsAfter(script: seq<Moment>)
    requires script != []
    ensures ScriptIds(script) == SignalIds(script[0].arrivals) + ScriptIds(script[1..])
  {
  }

  lemma {:induction false} QuietIds(script: seq<Moment>)
    requires forall i :: 0 <= i < |script| ==> script[i].arrivals == []
    ensures ScriptIds(script) == multiset{}
  {
    if script != [] {
      QuietIds(script[1..]);
    }
  }

  lemma {:induction false} NoIds(signals: seq<Signal>)
    requires forall i :: 0 <= i < |signals| ==> IdsOf(signals[i]) == multiset{}
    ensures SignalIds(signals) == multiset{}
  {
    if signals != [] {
      NoIds(signals[1..]);
    }
  }
}
