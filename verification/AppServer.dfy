/**
 * The runner's end of `codex app-server`'s JSON-RPC (`packages/agent-runner/src/app-server.ts`): each request given an
 * id and a place in the pending table, and settled by the answer with its id, by its bound, or by the process's exit,
 * whichever comes first.
 */
module AppServer {
  import opened Basics

  /**
   * A line's id: none, a number, or a string, which the table is asked for by the number it spells, if it spells one.
   */
  datatype RpcId = Absent | Numeric(value: int) | Spelled(number: Option<int>)

  /**
   * A line app-server wrote, as it is routed: whether it names a method, and one the listener serves, and what it
   * answers otherwise.
   */
  datatype Incoming =
    | NotRpc
    | Incoming(id: RpcId, names: bool, served: bool, error: Option<string>, result: string)

  /** How a request was settled. */
  datatype How = Answered(result: string) | Failed(error: string) | TimedOut | Exited

  datatype Settled = Settled(id: int, how: How)

  /** What was written to app-server: a request under its id, or a refusal of one of app-server's own, or its answer. */
  datatype Written = Asked(id: int) | Refusal(to: RpcId) | Reply(to: RpcId, succeeded: bool)

  /**
   * The pending table in the order its requests were made, and what has come of the others; and app-server's own
   * requests being served, each by a fiber that answers it when it is done.
   */
  datatype Client = Client(
    pending: seq<int>, nextId: int, closed: bool, written: seq<Written>, settled: seq<Settled>, serving: seq<RpcId>)

  datatype Act = Request | Take(line: Incoming) | TimeOut(id: int) | End | Serve(fiber: nat, succeeded: bool)

  const FRESH := Client([], 1, false, [], [], [])

  /** `Number(id)`, as the table's key. */
  function KeyOf(id: RpcId): Option<int> {
    match id
    case Absent => None
    case Numeric(value) => Some(value)
    case Spelled(number) => number
  }

  function Dropped(pending: seq<int>, id: int): seq<int> {
    if pending == [] then []
    else if pending[0] == id then pending[1..]
    else [pending[0]] + Dropped(pending[1..], id)
  }

  /** A request made: registered and written, or refused at once where no reader is left to answer it. */
  function Requested(c: Client): Client {
    if c.closed then c.(nextId := c.nextId + 1, settled := c.settled + [Settled(c.nextId, Exited)])
    else c.(nextId := c.nextId + 1, pending := c.pending + [c.nextId], written := c.written + [Asked(c.nextId)])
  }

  /** What an answer says. */
  function Says(line: Incoming): How
    requires line.Incoming?
  {
    match line.error
    case None => Answered(line.result)
    case Some(error) => Failed(error)
  }

  /**
   * A line read: a request of app-server's served or refused, a notification handed on, or an answer matched to its
   * request.
   */
  function LineTaken(c: Client, line: Incoming): Client {
    match line
    case NotRpc => c
    case Incoming(id, names, served, _, _) =>
      if names then
        if id.Absent? then c
        else if served then c.(serving := c.serving + [id])
        else c.(written := c.written + [Refusal(id)])
      else
        var key := KeyOf(id);
        if key.None? || key.value !in c.pending then c
        else
          c.(pending := Dropped(c.pending, key.value), settled := c.settled + [Settled(key.value, Says(line))])
  }

  /** A request's bound passed. */
  function BoundPassed(c: Client, id: int): Client {
    if id !in c.pending then c
    else c.(pending := Dropped(c.pending, id), settled := c.settled + [Settled(id, TimedOut)])
  }

  function AllExited(pending: seq<int>): seq<Settled> {
    if pending == [] then [] else [Settled(pending[0], Exited)] + AllExited(pending[1..])
  }

  /** Stdout ended: every request pending fails. */
  function StdoutEnded(c: Client): Client {
    c.(closed := true, pending := [], settled := c.settled + AllExited(c.pending))
  }

  /** A request of app-server's served to its end: answered with what came of it. */
  function Served(c: Client, fiber: nat, succeeded: bool): Client {
    if fiber >= |c.serving| then c
    else
      c.(written := c.written + [Reply(c.serving[fiber], succeeded)],
         serving := c.serving[..fiber] + c.serving[fiber + 1..])
  }

  function Next(c: Client, act: Act): Client {
    match act
    case Request => Requested(c)
    case Take(line) => LineTaken(c, line)
    case TimeOut(id) => BoundPassed(c, id)
    case End => StdoutEnded(c)
    case Serve(fiber, succeeded) => Served(c, fiber, succeeded)
  }

  function After(c: Client, acts: seq<Act>): Client
    decreases |acts|
  {
    if acts == [] then c else Next(After(c, acts[..|acts| - 1]), acts[|acts| - 1])
  }

  /** The client as it runs. */
  class AppServerClient {
    var pending: seq<int>
    var nextId: int
    var closed: bool
    var written: seq<Written>
    var serving: seq<RpcId>
    ghost var settled: seq<Settled>

    ghost function View(): Client
      reads this
    {
      Client(pending, nextId, closed, written, settled, serving)
    }

    constructor ()
      ensures View() == FRESH
    {
      pending, nextId, closed, written, settled, serving := [], 1, false, [], [], [];
    }

    /** Makes a request; answers its id, and whether it was registered. */
    method Ask() returns (id: int, registered: bool)
      modifies this
      ensures View() == Requested(old(View())) && id == old(nextId) && registered == !old(closed)
    {
      id, registered := nextId, !closed;
      nextId := nextId + 1;
      if closed {
        settled := settled + [Settled(id, Exited)];
      } else {
        pending := pending + [id];
        written := written + [Asked(id)];
      }
    }

    method TakeLine(line: Incoming)
      modifies this
      ensures View() == LineTaken(old(View()), line)
    {
      if line.NotRpc? {
        return;
      }
      if line.names {
        if line.served && !line.id.Absent? {
          serving := serving + [line.id];
        } else if !line.id.Absent? {
          written := written + [Refusal(line.id)];
        }
        return;
      }
      var key := KeyOf(line.id);
      if key.Some? && key.value in pending {
        pending := Dropped(pending, key.value);
        settled := settled + [Settled(key.value, Says(line))];
      }
    }

    /** A fiber that serves a request of app-server's done. */
    method Serve(fiber: nat, succeeded: bool)
      modifies this
      ensures View() == Served(old(View()), fiber, succeeded)
    {
      if fiber < |serving| {
        written := written + [Reply(serving[fiber], succeeded)];
        serving := serving[..fiber] + serving[fiber + 1..];
      }
    }

    method PassBound(id: int)
      modifies this
      ensures View() == BoundPassed(old(View()), id)
    {
      if id in pending {
        pending := Dropped(pending, id);
        settled := settled + [Settled(id, TimedOut)];
      }
    }

    /** Stdout ended: the table is emptied, then each request it held fails. */
    method EndStdout()
      modifies this
      ensures View() == StdoutEnded(old(View()))
    {
      closed := true;
      var unanswered := pending;
      pending := [];
      for i := 0 to |unanswered|
        invariant View() == old(View()).(closed := true, pending := [], settled := settled)
        invariant settled + AllExited(unanswered[i..]) == old(settled) + AllExited(unanswered)
      {
        assert unanswered[i..][0] == unanswered[i] && unanswered[i..][1..] == unanswered[i + 1..];
        settled := settled + [Settled(unanswered[i], Exited)];
      }
    }
  }

  // ---- What every run keeps ----

  function IdsOf(settled: seq<Settled>): multiset<int> {
    if settled == [] then multiset{}
    else IdsOf(settled[..|settled| - 1]) + multiset{settled[|settled| - 1].id}
  }

  /** The ids given out: 1 up to the next. */
  function Given(nextId: int): multiset<int>
    requires nextId >= 1
    decreases nextId
  {
    if nextId == 1 then multiset{} else Given(nextId - 1) + multiset{nextId - 1}
  }

  lemma {:induction false} GivenOnce(nextId: int, id: int)
    requires nextId >= 1
    ensures Given(nextId)[id] == if 1 <= id < nextId then 1 else 0
    decreases nextId
  {
    if nextId > 1 {
      GivenOnce(nextId - 1, id);
    }
  }

  /** Each id given out is pending or settled, and once; and nothing is pending once stdout ended. */
  ghost predicate Inv(c: Client) {
    && c.nextId >= 1
    && Given(c.nextId) == multiset(c.pending) + IdsOf(c.settled)
    && (c.closed ==> c.pending == [])
  }

  lemma {:induction false} DroppedOne(pending: seq<int>, id: int)
    requires id in pending
    ensures multiset(pending) == multiset(Dropped(pending, id)) + multiset{id}
  {
    assert pending == [pending[0]] + pending[1..];
    if pending[0] != id {
      DroppedOne(pending[1..], id);
    }
  }

  lemma {:induction false} IdsConcat(a: seq<Settled>, b: seq<Settled>)
    ensures IdsOf(a + b) == IdsOf(a) + IdsOf(b)
    decreases |b|
  {
    if b == [] {
      assert a + b == a;
    } else {
      var init := b[..|b| - 1];
      assert (a + b)[..|a + b| - 1] == a + init;
      IdsConcat(a, init);
    }
  }

  lemma {:induction false} AllExitedIds(pending: seq<int>)
    ensures IdsOf(AllExited(pending)) == multiset(pending)
  {
    if pending != [] {
      assert pending == [pending[0]] + pending[1..];
      AllExitedIds(pending[1..]);
      IdsConcat([Settled(pending[0], Exited)], AllExited(pending[1..]));
    }
  }

  lemma SettledAdds(settled: seq<Settled>, s: Settled)
    ensures IdsOf(settled + [s]) == IdsOf(settled) + multiset{s.id}
  {
    assert (settled + [s])[..|settled|] == settled;
  }

  lemma SettleKeeps(c: Client, id: int, how: How)
    requires Inv(c) && id in c.pending
    ensures Inv(c.(pending := Dropped(c.pending, id), settled := c.settled + [Settled(id, how)]))
  {
    DroppedOne(c.pending, id);
    SettledAdds(c.settled, Settled(id, how));
  }

  lemma GivenNext(nextId: int)
    requires nextId >= 1
    ensures Given(nextId + 1) == Given(nextId) + multiset{nextId}
  {
  }

  lemma RequestKeeps(c: Client)
    requires Inv(c)
    ensures Inv(Requested(c))
  {
    GivenNext(c.nextId);
    if c.closed {
      SettledAdds(c.settled, Settled(c.nextId, Exited));
    } else {
      PendingAdds(c.pending, c.nextId);
    }
  }

  lemma PendingAdds(pending: seq<int>, id: int)
    ensures multiset(pending + [id]) == multiset(pending) + multiset{id}
  {
  }

  /** What is written, and what is being served, has no part in it. */
  lemma InvSame(c: Client, d: Client)
    requires Inv(c) && d == c.(written := d.written, serving := d.serving)
    ensures Inv(d)
  {
  }

  lemma TakeKeeps(c: Client, line: Incoming)
    requires Inv(c)
    ensures Inv(LineTaken(c, line))
  {
    if line.Incoming? && !line.names && KeyOf(line.id).Some? && KeyOf(line.id).value in c.pending {
      SettleKeeps(c, KeyOf(line.id).value, Says(line));
    } else {
      InvSame(c, LineTaken(c, line));
    }
  }

  lemma EndKeeps(c: Client)
    requires Inv(c)
    ensures Inv(StdoutEnded(c))
  {
    AllExitedIds(c.pending);
    IdsConcat(c.settled, AllExited(c.pending));
  }

  lemma NextKeeps(c: Client, act: Act)
    requires Inv(c)
    ensures Inv(Next(c, act))
  {
    match act
    case Request => RequestKeeps(c);
    case Take(line) => TakeKeeps(c, line);
    case TimeOut(id) => BoundKeeps(c, id);
    case End => EndKeeps(c);
    case Serve(fiber, succeeded) => InvSame(c, Served(c, fiber, succeeded));
  }

  lemma BoundKeeps(c: Client, id: int)
    requires Inv(c)
    ensures Inv(BoundPassed(c, id))
  {
    if id in c.pending {
      SettleKeeps(c, id, TimedOut);
    }
  }

  lemma {:induction false} Always(acts: seq<Act>)
    ensures Inv(After(FRESH, acts))
    decreases |acts|
  {
    if acts != [] {
      Always(acts[..|acts| - 1]);
      NextKeeps(After(FRESH, acts[..|acts| - 1]), acts[|acts| - 1]);
    }
  }

  /**
   * Whatever order answers, bounds and the process's end come in: each id given to a request is given once, and is
   * either pending or settled, once; no other id is; and once stdout ended every request made is settled.
   */
  lemma SettledOnce(acts: seq<Act>, id: int)
    ensures var c := After(FRESH, acts);
            && multiset(c.pending)[id] + IdsOf(c.settled)[id] == (if 1 <= id < c.nextId then 1 else 0)
            && (c.closed ==> c.pending == [] && (1 <= id < c.nextId ==> IdsOf(c.settled)[id] == 1))
  {
    Always(acts);
    GivenOnce(After(FRESH, acts).nextId, id);
  }

  /** What may settle a request so. */
  predicate Causes(act: Act, s: Settled) {
    match act
    case Take(line) => line.Incoming? && !line.names && KeyOf(line.id) == Some(s.id) && s.how == Says(line)
    case TimeOut(id) => id == s.id && s.how == TimedOut
    case End => s.how == Exited
    case _ => false
  }

  /** Every settlement has its cause: the answer with the request's own id, its bound, or stdout's end. */
  lemma {:induction false} SettledByCause(acts: seq<Act>, s: Settled)
    requires s in After(FRESH, acts).settled
    ensures exists act :: act in acts && Causes(act, s)
    decreases |acts|
  {
    var before, last := acts[..|acts| - 1], acts[|acts| - 1];
    var c := After(FRESH, before);
    if s in c.settled {
      SettledByCause(before, s);
      var act :| act in before && Causes(act, s);
      assert act in acts;
    } else {
      match last
      case End =>
        AllExitedHow(c.pending);
        assert Causes(last, s);
      case Request =>
        ClosedByEnd(before);
        assert Causes(End, s);
      case _ => assert Causes(last, s);
    }
  }

  lemma {:induction false} AllExitedHow(pending: seq<int>)
    ensures forall s :: s in AllExited(pending) ==> s.how == Exited
  {
    if pending != [] {
      AllExitedHow(pending[1..]);
    }
  }

  lemma {:induction false} ClosedByEnd(acts: seq<Act>)
    ensures After(FRESH, acts).closed <==> End in acts
    decreases |acts|
  {
    if acts != [] {
      ClosedByEnd(acts[..|acts| - 1]);
      assert acts == acts[..|acts| - 1] + [acts[|acts| - 1]];
    }
  }

  /** A table with a request of it settled, and nothing else of it or of what was written changed. */
  ghost predicate Settles(c: Client, d: Client, id: int, how: How) {
    && d.settled == c.settled + [Settled(id, how)] && d == c.(pending := d.pending, settled := d.settled)
    && id !in d.pending && multiset(c.pending) == multiset(d.pending) + multiset{id}
  }

  lemma SettledOut(acts: seq<Act>, id: int)
    requires id in After(FRESH, acts).pending
    ensures id !in Dropped(After(FRESH, acts).pending, id)
    ensures multiset(After(FRESH, acts).pending) == multiset(Dropped(After(FRESH, acts).pending, id)) + multiset{id}
  {
    var pending := After(FRESH, acts).pending;
    SettledOnce(acts, id);
    DroppedOne(pending, id);
    assert multiset(pending)[id] <= 1;
    assert id !in multiset(Dropped(pending, id));
  }

  /**
   * An answer with a pending request's id, as a number or spelled, settles that request and no other: as failed where
   * it carries an error, whatever else it carries, and otherwise with its result.
   */
  lemma AnswerSettles(acts: seq<Act>, line: Incoming, id: int)
    requires id in After(FRESH, acts).pending
    requires line.Incoming? && !line.names && (line.id == Numeric(id) || line.id == Spelled(Some(id)))
    ensures Settles(After(FRESH, acts), Next(After(FRESH, acts), Take(line)), id,
                    match line.error case Some(error) => Failed(error) case None => Answered(line.result))
  {
    SettledOut(acts, id);
  }

  /** A line that answers no pending request settles none, and an answer writes nothing. */
  lemma OtherLinesSettleNone(c: Client, line: Incoming)
    requires line.NotRpc? || line.names
      || (forall id :: id in c.pending ==> line.id != Numeric(id) && line.id != Spelled(Some(id)))
    ensures Next(c, Take(line)).pending == c.pending && Next(c, Take(line)).settled == c.settled
    ensures line.NotRpc? || !line.names ==> Next(c, Take(line)) == c
  {
  }

  /** A request of app-server's is served where the runner serves its method, and refused at once where it does not. */
  lemma AskedServedOrRefused(c: Client, line: Incoming)
    requires line.Incoming? && line.names && line.id != Absent
    ensures var d := Next(c, Take(line));
      if line.served then d.serving == c.serving + [line.id] && d.written == c.written
      else d.serving == c.serving && d.written == c.written + [Refusal(line.id)]
  {
  }

  /** A request served to its end is answered, with what came of it. */
  lemma FiberAnswers(c: Client, fiber: nat, succeeded: bool)
    requires fiber < |c.serving|
    ensures var d := Next(c, Serve(fiber, succeeded));
      && d.written == c.written + [Reply(c.serving[fiber], succeeded)]
      && multiset(c.serving) == multiset(d.serving) + multiset{c.serving[fiber]}
      && d.pending == c.pending && d.settled == c.settled
  {
    ServingDrops(c.serving, fiber);
  }

  /** A bound passed settles its request as timed out. */
  lemma BoundSettles(acts: seq<Act>, id: int)
    requires id in After(FRESH, acts).pending
    ensures Settles(After(FRESH, acts), Next(After(FRESH, acts), TimeOut(id)), id, TimedOut)
  {
    SettledOut(acts, id);
  }

  /** How many requests were made, and how many of them before stdout ended. */
  function Made(acts: seq<Act>): nat
    decreases |acts|
  {
    if acts == [] then 0 else Made(acts[..|acts| - 1]) + if acts[|acts| - 1].Request? then 1 else 0
  }

  function MadeOpen(acts: seq<Act>): nat
    decreases |acts|
  {
    if acts == [] then 0
    else
      var before := acts[..|acts| - 1];
      MadeOpen(before) + if acts[|acts| - 1].Request? && End !in before then 1 else 0
  }

  /**
   * The requests are numbered from 1 as they are made; those made before stdout's end, and no others, are written, and
   * each made after it fails at once.
   */
  lemma {:induction false} EachWritten(acts: seq<Act>, id: int)
    ensures var c := After(FRESH, acts);
      && c.nextId == Made(acts) + 1 && MadeOpen(acts) <= Made(acts)
      && (Asked(id) in c.written <==> 1 <= id <= MadeOpen(acts))
      && (MadeOpen(acts) < id <= Made(acts) ==> Settled(id, Exited) in c.settled)
      && (End !in acts ==> MadeOpen(acts) == Made(acts))
    decreases |acts|
  {
    if acts != [] {
      var before, last := acts[..|acts| - 1], acts[|acts| - 1];
      EachWritten(before, id);
      ClosedByEnd(before);
      assert acts == before + [last];
      if Settled(id, Exited) in After(FRESH, before).settled {
        SettledStay(After(FRESH, before), last, Settled(id, Exited));
      }
      NextWritten(After(FRESH, before), last, id);
    }
  }

  lemma NextWritten(c: Client, act: Act, id: int)
    ensures Asked(id) in Next(c, act).written
      <==> Asked(id) in c.written || (act.Request? && !c.closed && id == c.nextId)
    ensures Next(c, act).nextId == c.nextId + if act.Request? then 1 else 0
    ensures act.Request? && c.closed ==> Settled(c.nextId, Exited) in Next(c, act).settled
  {
  }

  lemma SettledStay(c: Client, act: Act, s: Settled)
    requires s in c.settled
    ensures s in Next(c, act).settled
  {
  }

  /** An answer that comes late, or a second time, changes nothing; nor does a line with no id of a pending request. */
  lemma LateAnswerDropped(acts: seq<Act>, line: Incoming, s: Settled)
    requires s in After(FRESH, acts).settled
    requires line.Incoming? && !line.names && KeyOf(line.id) == Some(s.id)
    ensures Next(After(FRESH, acts), Take(line)) == After(FRESH, acts)
  {
    var c := After(FRESH, acts);
    SettledOnce(acts, s.id);
    SettledIn(c.settled, s);
  }

  lemma {:induction false} SettledIn(settled: seq<Settled>, s: Settled)
    requires s in settled
    ensures IdsOf(settled)[s.id] >= 1
    decreases |settled|
  {
    if settled[|settled| - 1] != s {
      SettledIn(settled[..|settled| - 1], s);
    }
  }

  /** The requests written carry ids strictly increasing, so none is ever written twice. */
  lemma {:induction false} IdsIncrease(acts: seq<Act>)
    ensures var c := After(FRESH, acts);
            && c.nextId >= 1
            && (forall i :: 0 <= i < |c.written| && c.written[i].Asked? ==> 1 <= c.written[i].id < c.nextId)
            && (forall i, j :: 0 <= i < j < |c.written| && c.written[i].Asked? && c.written[j].Asked? ==>
                  c.written[i].id < c.written[j].id)
    decreases |acts|
  {
    if acts != [] {
      IdsIncrease(acts[..|acts| - 1]);
    }
  }

  // ---- app-server's own requests ----

  /** How often app-server asked under an id. */
  function TimesAsked(acts: seq<Act>, id: RpcId): nat
    decreases |acts|
  {
    if acts == [] then 0
    else
      var last := acts[|acts| - 1];
      TimesAsked(acts[..|acts| - 1], id) + Asks(last, id)
  }

  /** How often it was answered under that id. */
  function TimesAnswered(written: seq<Written>, id: RpcId): nat {
    if written == [] then 0
    else
      var last := written[|written| - 1];
      TimesAnswered(written[..|written| - 1], id) + if !last.Asked? && last.to == id then 1 else 0
  }

  lemma AnsweredAdds(written: seq<Written>, w: Written, id: RpcId)
    ensures TimesAnswered(written + [w], id)
      == TimesAnswered(written, id) + if !w.Asked? && w.to == id then 1 else 0
  {
    assert (written + [w])[..|written|] == written;
  }

  lemma ServingDrops(serving: seq<RpcId>, fiber: nat)
    requires fiber < |serving|
    ensures multiset(serving) == multiset(serving[..fiber] + serving[fiber + 1..]) + multiset{serving[fiber]}
  {
    assert serving == serving[..fiber] + [serving[fiber]] + serving[fiber + 1..];
  }

  function Asks(act: Act, id: RpcId): nat {
    if act.Take? && act.line.Incoming? && act.line.names && act.line.id == id then 1 else 0
  }

  lemma TakeAnswers(c: Client, line: Incoming, id: RpcId)
    requires id != Absent
    ensures var d := LineTaken(c, line);
            TimesAnswered(d.written, id) + multiset(d.serving)[id]
            == TimesAnswered(c.written, id) + multiset(c.serving)[id] + Asks(Take(line), id)
  {
    var d := LineTaken(c, line);
    if line.Incoming? && line.names && line.id != Absent {
      if line.served {
        assert d == c.(serving := c.serving + [line.id]);
        ServingAdds(c.serving, line.id, id);
      } else {
        assert d == c.(written := c.written + [Refusal(line.id)]);
        AnsweredAdds(c.written, Refusal(line.id), id);
      }
    } else {
      assert d.written == c.written && d.serving == c.serving;
    }
  }

  lemma ServingAdds(serving: seq<RpcId>, added: RpcId, id: RpcId)
    ensures multiset(serving + [added])[id] == multiset(serving)[id] + if added == id then 1 else 0
  {
  }

  lemma ServeAnswers(c: Client, fiber: nat, succeeded: bool, id: RpcId)
    ensures var d := Served(c, fiber, succeeded);
            TimesAnswered(d.written, id) + multiset(d.serving)[id]
            == TimesAnswered(c.written, id) + multiset(c.serving)[id]
  {
    if fiber < |c.serving| {
      AnsweredAdds(c.written, Reply(c.serving[fiber], succeeded), id);
      ServingDrops(c.serving, fiber);
    }
  }

  /** Each request of app-server's is being served or was answered, once, whatever comes of our own. */
  lemma {:induction false} EachAnsweredOnce(acts: seq<Act>, id: RpcId)
    requires id != Absent
    ensures var c := After(FRESH, acts);
            TimesAnswered(c.written, id) + multiset(c.serving)[id] == TimesAsked(acts, id)
    decreases |acts|
  {
    if acts != [] {
      var before, last := acts[..|acts| - 1], acts[|acts| - 1];
      EachAnsweredOnce(before, id);
      var c := After(FRESH, before);
      match last
      case Request => AnsweredAdds(c.written, Asked(c.nextId), id);
      case Take(line) => TakeAnswers(c, line, id);
      case Serve(fiber, succeeded) => ServeAnswers(c, fiber, succeeded, id);
      case _ =>
    }
  }
}
