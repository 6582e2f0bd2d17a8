/**
 * The sink against a network that may lose, delay and repeat any post or answer, and a service that applies each number
 * at most once (`packages/agent-runner/src/protocol.ts`, the contract of a batch), and may fail in the middle of one.
 */
module Delivery {
  import opened Basics
  import opened Events

  /**
   * Every post ever made may arrive, any number of times, at any time; every answer the service gave to a post may
   * arrive at its sender, which listens only for the one to the post it made last. `emitted` is what the sink took
   * before it was ended, `acked` how much of it stands in batches answered as taken.
   */
  datatype World<M> = World(
    sink: Sink<M>,
    posts: seq<Batch<M>>,
    attempt: nat,
    answers: set<(nat, int)>,
    applied: seq<Event<M>>,
    emitted: seq<Event<M>>,
    acked: nat)

  datatype Act<M> =
    | Emit(message: M)
    | Withhold(secret: string)
    | TakeBatch
    | Deliver(post: nat, some: nat, status: int)
    | Hear(answer: Option<int>)
    | Repost
    | Heartbeat
    | Drain

  predicate Numbered<M>(events: seq<Event<M>>, sequence: int) {
    exists i :: 0 <= i < |events| && events[i].sequence == sequence
  }

  /** The service applying a batch's events in order, each whose number it has not applied, at most `some` of them. */
  function Apply<M>(applied: seq<Event<M>>, events: seq<Event<M>>, some: nat): seq<Event<M>>
    decreases |events|
  {
    if events == [] || some == 0 then applied
    else if Numbered(applied, events[0].sequence) then Apply(applied, events[1..], some)
    else Apply(applied + [events[0]], events[1..], some - 1)
  }

  /** The events of the batch the sender has not yet been answered as taken. */
  function InFlight<M>(sender: Sender<M>): seq<Event<M>> {
    if sender.Posting? || sender.Backing? || sender.Refused? then sender.batch.events else []
  }

  function Start<M>(first: int, secrets: seq<string>): World<M> {
    World(Opened(first, secrets), [], 0, {}, [], [], 0)
  }

  /** A post the sender makes of the batch it holds. */
  function Posted<M>(w: World<M>, sink: Sink<M>): World<M> {
    if sink.sender.Posting? && !w.sink.sender.Posting?
    then w.(sink := sink, attempt := |w.posts|, posts := w.posts + [sink.sender.batch])
    else w.(sink := sink)
  }

  /** One step of the world; one that cannot be taken changes nothing. */
  function Next<M>(w: World<M>, act: Act<M>): World<M> {
    match act
    case Emit(message) =>
      w.(sink := Emitted(w.sink, message),
         emitted := if w.sink.ended then w.emitted else w.emitted + [Event(w.sink.next, message)])
    case Withhold(secret) => w.(sink := Withheld(w.sink, secret))
    case TakeBatch => Posted(w, BatchTaken(w.sink))
    case Repost => Posted(w, Reposted(w.sink))
    case Deliver(post, some, status) =>
      if post >= |w.posts| then w
      else
        var events := w.posts[post].events;
        w.(applied := Apply(w.applied, events, if Taken(status) then |events| else some),
           answers := w.answers + {(post, status)})
    case Hear(answer) =>
      if !w.sink.sender.Posting? || (answer.Some? && (w.attempt, answer.value) !in w.answers) then w
      else
        w.(sink := Answered(w.sink, answer),
           acked := w.acked + if answer.Some? && Taken(answer.value) then |w.sink.sender.batch.events| else 0)
    case Heartbeat => if w.sink.ended then w else w.(posts := w.posts + [Batch([], w.sink.secrets)])
    case Drain => w.(sink := Draining(w.sink))
  }

  function After<M>(w: World<M>, acts: seq<Act<M>>): World<M>
    decreases |acts|
  {
    if acts == [] then w else Next(After(w, acts[..|acts| - 1]), acts[|acts| - 1])
  }

  // ---- The invariant ----

  /** Numbers in order from the first, with no gap. */
  ghost predicate InSequence<M>(events: seq<Event<M>>, first: int) {
    forall i :: 0 <= i < |events| ==> events[i].sequence == first + i
  }

  /**
   * A batch posted is a stretch of what was emitted, from `lo`, which stands no further on than all that was answered
   * as taken.
   */
  ghost predicate Stretch<M>(w: World<M>, events: seq<Event<M>>, lo: nat) {
    && lo <= w.acked && lo + |events| <= w.acked + |InFlight(w.sink.sender)|
    && lo + |events| <= |w.emitted| && events == w.emitted[lo..lo + |events|]
  }

  ghost predicate Stands<M>(w: World<M>, events: seq<Event<M>>) {
    exists lo: nat :: Stretch(w, events, lo)
  }

  ghost predicate Queued<M>(w: World<M>) {
    var flight := InFlight(w.sink.sender);
    && w.acked + |flight| <= |w.emitted|
    && flight == w.emitted[w.acked..w.acked + |flight|]
    && w.sink.queue == w.emitted[w.acked + |flight|..]
  }

  ghost predicate Progress<M>(w: World<M>) {
    && w.acked <= |w.applied| <= w.acked + |InFlight(w.sink.sender)| <= |w.emitted|
    && w.applied == w.emitted[..|w.applied|]
  }

  ghost predicate PostsStand<M>(w: World<M>) {
    forall i :: 0 <= i < |w.posts| ==> Stands(w, w.posts[i].events)
  }

  /** A post answered as taken was applied whole. */
  ghost predicate AnswersStand<M>(w: World<M>) {
    forall i: nat, status: int :: (i, status) in w.answers ==>
      i < |w.posts| && (Taken(status) ==> forall e :: e in w.posts[i].events ==> e in w.applied)
  }

  ghost predicate Attempted<M>(w: World<M>) {
    w.sink.sender.Posting? ==> w.attempt < |w.posts| && w.posts[w.attempt] == w.sink.sender.batch
  }

  ghost predicate Inv<M>(w: World<M>, first: int) {
    && InSequence(w.emitted, first) && (!w.sink.ended ==> w.sink.next == first + |w.emitted|)
    && Queued(w) && Progress(w) && PostsStand(w) && AnswersStand(w) && Attempted(w)
    && (w.sink.sender.Done? ==> w.sink.ended && w.sink.queue == [])
  }

  // ---- Each step keeps it ----

  /** Applying a stretch that starts within what is applied goes on from where that stands, to `k`. */
  lemma {:induction false} Applied<M>(emitted: seq<Event<M>>, first: int, a: nat, lo: nat, hi: nat, some: nat)
    returns (k: nat)
    requires InSequence(emitted, first) && lo <= a <= |emitted| && lo <= hi <= |emitted|
    ensures a <= k <= |emitted| && (k <= hi || k == a) && (some >= hi - lo ==> k >= hi)
    ensures Apply(emitted[..a], emitted[lo..hi], some) == emitted[..k]
    decreases hi - lo
  {
    var applied, events := emitted[..a], emitted[lo..hi];
    if events == [] || some == 0 {
      k := a;
    } else {
      assert events[0] == emitted[lo] && events[1..] == emitted[lo + 1..hi];
      if lo < a {
        assert applied[lo].sequence == events[0].sequence;
        assert Numbered(applied, events[0].sequence);
        k := Applied(emitted, first, a, lo + 1, hi, some);
      } else {
        assert !Numbered(applied, events[0].sequence);
        assert applied + [events[0]] == emitted[..a + 1];
        k := Applied(emitted, first, a + 1, lo + 1, hi, some - 1);
      }
    }
  }

  /** Posts stand as they did where no more is unanswered before them, and nothing emitted is gone. */
  lemma PostsKept<M>(w: World<M>, w': World<M>)
    requires PostsStand(w) && w'.posts == w.posts && w.emitted <= w'.emitted && w.acked <= w'.acked
    requires w.acked + |InFlight(w.sink.sender)| <= w'.acked + |InFlight(w'.sink.sender)|
    ensures PostsStand(w')
  {
    forall i | 0 <= i < |w'.posts| ensures Stands(w', w'.posts[i].events) {
      assert Stands(w, w.posts[i].events);
      var lo: nat :| Stretch(w, w.posts[i].events, lo);
      var events := w.posts[i].events;
      assert w'.emitted[lo..lo + |events|] == w.emitted[lo..lo + |events|];
      assert Stretch(w', events, lo);
    }
  }

  lemma PostAdded<M>(w: World<M>, w': World<M>, batch: Batch<M>, lo: nat)
    requires PostsStand(w) && AnswersStand(w) && Stretch(w, batch.events, lo)
    requires w' == w.(posts := w.posts + [batch], attempt := w'.attempt)
    ensures PostsStand(w') && AnswersStand(w')
  {
    forall i | 0 <= i < |w'.posts| ensures Stands(w', w'.posts[i].events) {
      if i < |w.posts| {
        assert Stands(w, w.posts[i].events);
        var lo': nat :| Stretch(w, w.posts[i].events, lo');
        assert Stretch(w', w'.posts[i].events, lo');
      } else {
        assert Stretch(w', w'.posts[i].events, lo);
      }
    }
  }

  lemma AnswersKept<M>(w: World<M>, w': World<M>)
    requires AnswersStand(w) && w'.posts == w.posts && w.applied <= w'.applied && w'.answers == w.answers
    ensures AnswersStand(w')
  {
    forall i: nat, status: int | (i, status) in w'.answers && Taken(status)
      ensures forall e :: e in w'.posts[i].events ==> e in w'.applied
    {
      forall e | e in w'.posts[i].events ensures e in w'.applied {
        assert e in w.applied;
        var j :| 0 <= j < |w.applied| && w.applied[j] == e;
        assert w'.applied[j] == e;
      }
    }
  }

  /** A stretch applied leaves the service at some place within what the sink has sent. */
  lemma StretchApplied<M>(w: World<M>, first: int, events: seq<Event<M>>, some: nat) returns (k: nat)
    requires InSequence(w.emitted, first) && Progress(w) && Stands(w, events)
    ensures |w.applied| <= k <= w.acked + |InFlight(w.sink.sender)|
    ensures Apply(w.applied, events, some) == w.emitted[..k]
    ensures some >= |events| ==> forall e :: e in events ==> e in w.emitted[..k]
  {
    var lo: nat :| Stretch(w, events, lo);
    var hi := lo + |events|;
    k := Applied(w.emitted, first, |w.applied|, lo, hi, some);
    if some >= |events| {
      StretchIn(w.emitted, lo, hi, k);
    }
  }

  /**
   * A post that arrived, however late and however often: what is applied grows along what was emitted, or not at all.
   */
  lemma DeliverApplies<M>(w: World<M>, first: int, post: nat, some: nat, status: int)
    requires Inv(w, first) && post < |w.posts|
    ensures var w' := Next(w, Deliver(post, some, status));
            && w.applied <= w'.applied && Progress(w')
            && (Taken(status) ==> forall e :: e in w.posts[post].events ==> e in w'.applied)
  {
    var events := w.posts[post].events;
    assert Stands(w, events);
    var k := StretchApplied(w, first, events, if Taken(status) then |events| else some);
    assert w.applied == w.emitted[..k][..|w.applied|];
  }

  lemma StretchIn<M>(emitted: seq<Event<M>>, lo: nat, hi: nat, k: nat)
    requires lo <= hi <= k <= |emitted|
    ensures forall e :: e in emitted[lo..hi] ==> e in emitted[..k]
  {
    forall e | e in emitted[lo..hi] ensures e in emitted[..k] {
      var i :| 0 <= i < hi - lo && emitted[lo..hi][i] == e;
      assert emitted[..k][lo + i] == e;
    }
  }

  lemma DeliverKeeps<M>(w: World<M>, first: int, post: nat, some: nat, status: int)
    requires Inv(w, first)
    ensures Inv(Next(w, Deliver(post, some, status)), first)
  {
    if post < |w.posts| {
      var w' := Next(w, Deliver(post, some, status));
      DeliverApplies(w, first, post, some, status);
      PostsKept(w, w');
      AnswersKept(w, w'.(answers := w.answers));
      assert AnswersStand(w');
    }
  }

  /** What was emitted so far is where it was, a message emitted behind it. */
  lemma EmittedPlaced<M>(w: World<M>, message: M)
    requires Queued(w) && Progress(w)
    ensures Queued(Next(w, Emit(message))) && Progress(Next(w, Emit(message)))
  {
    var w' := Next(w, Emit(message));
    var edge := w.acked + |InFlight(w.sink.sender)|;
    if !w.sink.ended {
      assert w'.emitted[edge..] == w.emitted[edge..] + [Event(w.sink.next, message)];
      assert w'.emitted[w.acked..edge] == w.emitted[w.acked..edge];
      assert w'.emitted[..|w.applied|] == w.emitted[..|w.applied|];
    }
  }

  lemma EmitKeeps<M>(w: World<M>, first: int, message: M)
    requires Inv(w, first)
    ensures Inv(Next(w, Emit(message)), first)
  {
    var w' := Next(w, Emit(message));
    EmittedPlaced(w, message);
    EmittedNumbered(w, first, message);
    assert w'.posts == w.posts && w'.answers == w.answers && w'.applied == w.applied && w'.acked == w.acked;
    assert w'.sink.sender == w.sink.sender && w'.attempt == w.attempt && w'.sink.ended == w.sink.ended;
    PostsKept(w, w');
    AnswersKept(w, w');
  }

  lemma EmittedNumbered<M>(w: World<M>, first: int, message: M)
    requires InSequence(w.emitted, first) && (!w.sink.ended ==> w.sink.next == first + |w.emitted|)
    ensures var w' := Next(w, Emit(message));
            && w.emitted <= w'.emitted && InSequence(w'.emitted, first)
            && (!w'.sink.ended ==> w'.sink.next == first + |w'.emitted|)
  {
  }

  /** Taking a batch moves events from the queue to the sender, and the sink's place among what was emitted stays. */
  lemma BatchPlaced<M>(w: World<M>, first: int)
    requires Inv(w, first) && w.sink.sender.Waiting?
    ensures var taken := w.(sink := BatchTaken(w.sink));
            && Queued(taken) && Progress(taken) && PostsStand(taken) && AnswersStand(taken)
            && Stretch(taken, InFlight(taken.sink.sender), w.acked)
  {
    var sink := BatchTaken(w.sink);
    var n := |InFlight(sink.sender)|;
    assert w.sink.queue == w.emitted[w.acked..];
    assert InFlight(sink.sender) == w.emitted[w.acked..w.acked + n];
    assert sink.queue == w.emitted[w.acked + n..];
    PostsKept(w, w.(sink := sink));
    AnswersKept(w, w.(sink := sink));
  }

  lemma TakeBatchKeeps<M>(w: World<M>, first: int)
    requires Inv(w, first)
    ensures Inv(Next(w, TakeBatch), first)
  {
    if w.sink.sender.Waiting? {
      var sink := BatchTaken(w.sink);
      BatchPlaced(w, first);
      if sink.sender.Posting? {
        PostAdded(w.(sink := sink), Next(w, TakeBatch), sink.sender.batch, w.acked);
      }
    }
  }

  lemma RepostKeeps<M>(w: World<M>, first: int)
    requires Inv(w, first)
    ensures Inv(Next(w, Repost), first)
  {
    if w.sink.sender.Backing? {
      var sink := Reposted(w.sink);
      PostsKept(w, w.(sink := sink));
      AnswersKept(w, w.(sink := sink));
      assert Stretch(w.(sink := sink), sink.sender.batch.events, w.acked);
      PostAdded(w.(sink := sink), Next(w, Repost), sink.sender.batch, w.acked);
    }
  }

  /** A batch answered as taken was applied whole: none of it is left to apply. */
  lemma HeardApplied<M>(w: World<M>, first: int, status: int)
    requires Inv(w, first) && w.sink.sender.Posting? && Taken(status) && (w.attempt, status) in w.answers
    ensures |w.applied| == w.acked + |w.sink.sender.batch.events|
  {
    var events := w.sink.sender.batch.events;
    if events != [] {
      var last := events[|events| - 1];
      assert last == w.emitted[w.acked + |events| - 1];
      assert last in events && last in w.applied;
      var j :| 0 <= j < |w.applied| && w.applied[j] == last;
      assert w.emitted[j].sequence == first + j;
    }
  }

  lemma HearKeeps<M>(w: World<M>, first: int, answer: Option<int>)
    requires Inv(w, first)
    ensures Inv(Next(w, Hear(answer)), first)
  {
    var w' := Next(w, Hear(answer));
    if w.sink.sender.Posting? && answer.Some? && (w.attempt, answer.value) in w.answers && Taken(answer.value) {
      HeardApplied(w, first, answer.value);
    }
    PostsKept(w, w');
    AnswersKept(w, w');
  }

  lemma HeartbeatKeeps<M>(w: World<M>, first: int)
    requires Inv(w, first)
    ensures Inv(Next(w, Heartbeat), first)
  {
    if !w.sink.ended {
      assert Stretch(w, [], w.acked);
      PostAdded(w, Next(w, Heartbeat), Batch([], w.sink.secrets), w.acked);
    }
  }

  lemma StepKeeps<M>(w: World<M>, first: int, act: Act<M>)
    requires Inv(w, first)
    ensures Inv(Next(w, act), first)
  {
    match act
    case Emit(message) => EmitKeeps(w, first, message);
    case Withhold(secret) => PostsKept(w, Next(w, Withhold(secret))); AnswersKept(w, Next(w, Withhold(secret)));
    case TakeBatch => TakeBatchKeeps(w, first);
    case Repost => RepostKeeps(w, first);
    case Deliver(post, some, status) => DeliverKeeps(w, first, post, some, status);
    case Hear(answer) => HearKeeps(w, first, answer);
    case Heartbeat => HeartbeatKeeps(w, first);
    case Drain => PostsKept(w, Next(w, Drain)); AnswersKept(w, Next(w, Drain));
  }

  lemma {:induction false} Always<M>(first: int, secrets: seq<string>, acts: seq<Act<M>>)
    ensures Inv(After(Start(first, secrets), acts), first)
    decreases |acts|
  {
    if acts != [] {
      Always(first, secrets, acts[..|acts| - 1]);
      StepKeeps(After(Start(first, secrets), acts[..|acts| - 1]), first, acts[|acts| - 1]);
    }
  }

  // ---- What the service may rely on ----

  /**
   * Exactly once, whatever the network does: at every moment the events applied are the first of those emitted, each
   * once and in order, numbered from the launch's first with no gap; and where the sender ended, as `drain` waits for,
   * they are all of them.
   */
  lemma ExactlyOnce<M>(first: int, secrets: seq<string>, acts: seq<Act<M>>)
    ensures var w := After(Start(first, secrets), acts);
            && w.applied <= w.emitted && InSequence(w.applied, first)
            && (w.sink.sender.Done? ==> w.applied == w.emitted)
  {
    Always(first, secrets, acts);
    var w := After(Start(first, secrets), acts);
    assert w.applied == w.emitted[..|w.applied|];
  }

  predicate Drained<M>(acts: seq<Act<M>>) {
    exists i :: 0 <= i < |acts| && acts[i].Drain?
  }

  /** The messages offered to the sink before it was drained, in order. */
  function Offered<M>(acts: seq<Act<M>>): seq<M> {
    if acts == [] then []
    else
      var before, last := acts[..|acts| - 1], acts[|acts| - 1];
      Offered(before) + if last.Emit? && !Drained(before) then [last.message] else []
  }

  function MessagesOf<M>(events: seq<Event<M>>): seq<M> {
    seq(|events|, i requires 0 <= i < |events| => events[i].message)
  }

  lemma {:induction false} OfferedEmitted<M>(first: int, secrets: seq<string>, acts: seq<Act<M>>)
    ensures var w := After(Start(first, secrets), acts);
            MessagesOf(w.emitted) == Offered(acts) && (w.sink.ended <==> Drained(acts))
    decreases |acts|
  {
    if acts != [] {
      var before, last := acts[..|acts| - 1], acts[|acts| - 1];
      OfferedEmitted(first, secrets, before);
      OfferedStep(After(Start(first, secrets), before), last);
      DrainedStep(acts);
    }
  }

  lemma DrainedStep<M>(acts: seq<Act<M>>)
    requires acts != []
    ensures Drained(acts) <==> Drained(acts[..|acts| - 1]) || acts[|acts| - 1].Drain?
  {
    var before := acts[..|acts| - 1];
    if i :| 0 <= i < |before| && before[i].Drain? {
      assert acts[i].Drain?;
    }
    if j :| 0 <= j < |acts| && acts[j].Drain? && j < |acts| - 1 {
      assert before[j].Drain?;
    }
  }

  lemma OfferedStep<M>(w: World<M>, act: Act<M>)
    ensures var w' := Next(w, act);
            && MessagesOf(w'.emitted)
               == MessagesOf(w.emitted) + (if act.Emit? && !w.sink.ended then [act.message] else [])
            && (w'.sink.ended <==> w.sink.ended || act.Drain?)
  {
    if !act.Emit? {
      assert MessagesOf(w.emitted) + [] == MessagesOf(w.emitted);
    }
  }

  /**
   * What a drained sink delivers is every message offered to it before the drain, and what it applies is the first of
   * them.
   */
  lemma OfferedDelivered<M>(first: int, secrets: seq<string>, acts: seq<Act<M>>)
    ensures var w := After(Start(first, secrets), acts);
            && MessagesOf(w.applied) <= Offered(acts)
            && (w.sink.sender.Done? ==> MessagesOf(w.applied) == Offered(acts))
  {
    ExactlyOnce(first, secrets, acts);
    OfferedEmitted(first, secrets, acts);
  }

  /** The world gone on from where it stands. */
  function Onward<M>(w: World<M>, acts: seq<Act<M>>): World<M>
    decreases |acts|
  {
    if acts == [] then w else Onward(Next(w, acts[0]), acts[1..])
  }

  /**
   * A batch refused for good stops the sender: whatever comes after, it posts nothing but heartbeats, which carry
   * nothing, and the service applies nothing past that batch.
   */
  lemma {:induction false} RefusalStops<M>(w: World<M>, first: int, acts: seq<Act<M>>)
    requires Inv(w, first) && w.sink.sender.Refused?
    ensures var w' := Onward(w, acts);
            && w'.sink.sender == w.sink.sender && w'.acked == w.acked
            && w.posts <= w'.posts && (forall i :: |w.posts| <= i < |w'.posts| ==> w'.posts[i].events == [])
            && |w'.applied| <= w.acked + |w.sink.sender.batch.events| && w'.applied <= w'.emitted
    decreases |acts|
  {
    if acts != [] {
      var n := Next(w, acts[0]);
      StepKeeps(w, first, acts[0]);
      RefusedStep(w, acts[0]);
      RefusalStops(n, first, acts[1..]);
    } else {
      assert w.applied == w.emitted[..|w.applied|];
    }
  }

  lemma RefusedStep<M>(w: World<M>, act: Act<M>)
    requires w.sink.sender.Refused?
    ensures var n := Next(w, act);
            && n.sink.sender == w.sink.sender && n.acked == w.acked
            && (n.posts == w.posts || (exists batch :: n.posts == w.posts + [batch] && batch.events == []))
  {
  }

  /** Every post made since is scrubbed of a secret. */
  ghost predicate ScrubbedSince<M>(w: World<M>, w': World<M>, secret: string) {
    w.posts <= w'.posts && forall i :: |w.posts| <= i < |w'.posts| ==> secret in w'.posts[i].secrets
  }

  /** The sender holds no batch that was taken before a secret was withheld. */
  predicate HoldsNoneOlder<M>(w: World<M>, secret: string) {
    w.sink.sender.Posting? || w.sink.sender.Backing? ==> secret in w.sink.sender.batch.secrets
  }

  lemma {:induction false} WithheldFromNextBatch<M>(w: World<M>, acts: seq<Act<M>>, secret: string)
    requires secret in w.sink.secrets && HoldsNoneOlder(w, secret)
    ensures secret in Onward(w, acts).sink.secrets && ScrubbedSince(w, Onward(w, acts), secret)
    decreases |acts|
  {
    if acts != [] {
      ScrubbedNext(w, acts[0], secret);
      WithheldFromNextBatch(Next(w, acts[0]), acts[1..], secret);
    }
  }

  /** One act makes one post at most, and that of what is withheld by then. */
  lemma ScrubbedNext<M>(w: World<M>, act: Act<M>, secret: string)
    requires secret in w.sink.secrets && HoldsNoneOlder(w, secret)
    ensures var n := Next(w, act);
            && secret in n.sink.secrets && HoldsNoneOlder(n, secret)
            && w.posts <= n.posts && |n.posts| <= |w.posts| + 1
            && (|n.posts| > |w.posts| ==> secret in n.posts[|w.posts|].secrets)
  {
  }

  /** A batch taken before is posted again as it was first scrubbed, after a post unanswered. */
  lemma RetryKeepsItsSecrets<M>(w: World<M>, secret: string) returns (acts: seq<Act<M>>)
    requires !HoldsNoneOlder(w, secret)
    ensures var w' := Onward(w, acts);
            && |w'.posts| == |w.posts| + 1 && w'.posts[|w.posts|] == w.sink.sender.batch
            && secret !in w'.posts[|w.posts|].secrets
  {
    if w.sink.sender.Backing? {
      acts := [Repost];
      assert acts[1..] == [];
      assert Onward(w, acts) == Onward(Next(w, Repost), []);
    } else {
      acts := [Hear(None), Repost];
      assert acts[1..] == [Repost] && acts[1..][1..] == [];
      assert Onward(w, acts) == Onward(Next(w, acts[0]), acts[1..]);
      assert Onward(Next(w, acts[0]), acts[1..]) == Onward(Next(Next(w, acts[0]), Repost), []);
    }
  }

  /**
   * Once a secret is withheld every post from now on is scrubbed of it, whatever comes, exactly where the sender holds
   * no batch taken before: such a batch is posted again as it stands.
   */
  lemma WithheldExactly<M>(w: World<M>, secret: string)
    requires secret in w.sink.secrets
    ensures (forall acts: seq<Act<M>> :: ScrubbedSince(w, Onward(w, acts), secret)) <==> HoldsNoneOlder(w, secret)
  {
    if HoldsNoneOlder(w, secret) {
      forall acts: seq<Act<M>> ensures ScrubbedSince(w, Onward(w, acts), secret) {
        WithheldFromNextBatch(w, acts, secret);
      }
    } else {
      var acts := RetryKeepsItsSecrets(w, secret);
      assert !ScrubbedSince(w, Onward(w, acts), secret);
    }
  }

  /**
   * A run from a sink's opening that comes to hold such a batch: a message taken to be posted, and then a secret
   * withheld.
   */
  lemma OlderHeldRun<M>(first: int, secrets: seq<string>, message: M, secret: string)
    requires secret !in secrets
    ensures var w := After(Start<M>(first, secrets), [Emit(message), TakeBatch, Withhold(secret)]);
            secret in w.sink.secrets && !HoldsNoneOlder(w, secret)
  {
    var start := Start<M>(first, secrets);
    AfterThree(start, Emit(message), TakeBatch, Withhold(secret));
    var emitted := Next(start, Emit(message));
    assert emitted.sink == Sink(first + 1, [Event(first, message)], false, secrets, Waiting);
    OneTaken(emitted, Event(first, message));
  }

  lemma OneTaken<M>(w: World<M>, event: Event<M>)
    requires w.sink.sender.Waiting? && w.sink.queue == [event]
    ensures var taken := Next(w, TakeBatch);
            taken.sink.sender == Posting(Batch([event], w.sink.secrets)) && taken.sink.secrets == w.sink.secrets
  {
    assert [event][..1] == [event] && [event][1..] == [];
  }

  lemma AfterThree<M>(w: World<M>, a: Act<M>, b: Act<M>, c: Act<M>)
    ensures After(w, [a, b, c]) == Next(Next(Next(w, a), b), c)
  {
    AfterOne(w, [], a);
    AfterOne(w, [a], b);
    AfterOne(w, [a, b], c);
    assert [] + [a] == [a] && [a] + [b] == [a, b] && [a, b] + [c] == [a, b, c];
  }

  lemma AfterOne<M>(w: World<M>, acts: seq<Act<M>>, act: Act<M>)
    ensures After(w, acts + [act]) == Next(After(w, acts), act)
  {
    assert (acts + [act])[..|acts|] == acts;
  }
}
