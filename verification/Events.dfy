/**
 * The runner's way out (`packages/agent-runner/src/events.ts`): every message numbered as it is emitted, and posted in
 * batches, one at a time, each until the service takes it or refuses it for good.
 */
module Events {
  import opened Basics

  /** The most events one post carries. */
  const BATCH_MAX: nat := 256

  datatype Event<M> = Event(sequence: int, message: M)

  /** A batch, with the secrets its text was scrubbed of when it was taken from the queue. */
  datatype Batch<M> = Batch(events: seq<Event<M>>, secrets: seq<string>)

  /** The sender: waiting on the queue, on a post's answer, or before it posts the same batch again; or at its end. */
  datatype Sender<M> =
    | Waiting
    | Posting(batch: Batch<M>)
    | Backing(batch: Batch<M>)
    | Refused(batch: Batch<M>)
    | Done

  datatype Sink<M> = Sink(next: int, queue: seq<Event<M>>, ended: bool, secrets: seq<string>, sender: Sender<M>)

  predicate Taken(status: int) {
    200 <= status < 300
  }

  predicate Transient(status: int) {
    status >= 500 || status == 408 || status == 429
  }

  function Opened<M>(first: int, secrets: seq<string>): Sink<M> {
    Sink(first, [], false, secrets, Waiting)
  }

  /** A message emitted takes the next number, and is queued unless the queue has ended. */
  function Emitted<M>(s: Sink<M>, message: M): Sink<M> {
    s.(next := s.next + 1, queue := if s.ended then s.queue else s.queue + [Event(s.next, message)])
  }

  function Withheld<M>(s: Sink<M>, secret: string): Sink<M> {
    s.(secrets := s.secrets + [secret])
  }

  function Least(a: nat, b: nat): nat {
    if a < b then a else b
  }

  /** The sender's next batch: what the queue holds, up to the most one post carries; or its end, where it has ended. */
  function BatchTaken<M>(s: Sink<M>): Sink<M> {
    if !s.sender.Waiting? then s
    else if s.queue != [] then
      var n := Least(|s.queue|, BATCH_MAX);
      s.(queue := s.queue[n..], sender := Posting(Batch(s.queue[..n], s.secrets)))
    else if s.ended then s.(sender := Done)
    else s
  }

  /** A post answered, or given up as unanswered: the batch taken, to be posted again, or refused for good. */
  function Answered<M>(s: Sink<M>, status: Option<int>): Sink<M> {
    if !s.sender.Posting? then s
    else if status.Some? && Taken(status.value) then s.(sender := Waiting)
    else if status.None? || Transient(status.value) then s.(sender := Backing(s.sender.batch))
    else s.(sender := Refused(s.sender.batch))
  }

  function Reposted<M>(s: Sink<M>): Sink<M> {
    if s.sender.Backing? then s.(sender := Posting(s.sender.batch)) else s
  }

  function Draining<M>(s: Sink<M>): Sink<M> {
    s.(ended := true)
  }

  // ---- the sender's loop ----

  /** The sender at the head of its loop: the batch it has to post again, or the next one. */
  function ToPost<M>(s: Sink<M>): Sink<M> {
    if s.sender.Backing? then Reposted(s) else BatchTaken(s)
  }

  /**
   * The sender run on the answers its posts are given, one to a post, as far as they go or it has something to post.
   */
  function Sending<M>(s: Sink<M>, answers: seq<Option<int>>): Sink<M>
    decreases |answers|
  {
    var t := ToPost(s);
    if answers == [] || !t.sender.Posting? then t else Sending(Answered(t, answers[0]), answers[1..])
  }

  /** The events of the posts answered as taken, in the order they were posted. */
  function SentBy<M>(s: Sink<M>, answers: seq<Option<int>>): seq<Event<M>>
    decreases |answers|
  {
    var t := ToPost(s);
    if answers == [] || !t.sender.Posting? then []
    else Heard(t, answers[0]) + SentBy(Answered(t, answers[0]), answers[1..])
  }

  /** The events an answer says were taken. */
  function Heard<M>(s: Sink<M>, answer: Option<int>): seq<Event<M>> {
    if s.sender.Posting? && answer.Some? && Taken(answer.value) then s.sender.batch.events else []
  }

  lemma HeardHolds<M>(s: Sink<M>, answer: Option<int>)
    ensures Heard(s, answer) + Unsent(Answered(s, answer)) == Unsent(s)
  {
    assert [] + Unsent(s) == Unsent(s);
    assert [] + s.queue == s.queue;
  }

  /** What the sink still holds: the batch it has not heard was taken, and then the queue. */
  function Unsent<M>(s: Sink<M>): seq<Event<M>> {
    (if s.sender.Posting? || s.sender.Backing? || s.sender.Refused? then s.sender.batch.events else []) + s.queue
  }

  lemma ToPostHolds<M>(s: Sink<M>)
    ensures Unsent(ToPost(s)) == Unsent(s)
  {
    if s.sender.Waiting? && s.queue != [] {
      var n := Least(|s.queue|, BATCH_MAX);
      assert s.queue == s.queue[..n] + s.queue[n..];
    }
  }

  /** A sender with nothing to post stays as it is. */
  lemma StaysPut<M>(s: Sink<M>, answers: seq<Option<int>>)
    requires !s.sender.Posting? && !s.sender.Backing? && (s.sender.Waiting? ==> s.queue == [] && !s.ended)
    ensures Sending(s, answers) == s
  {
  }

  /** Whatever the answers, what was sent and what is still held is all that was held, each once and in order. */
  lemma {:induction false} SendingKeepsAll<M>(s: Sink<M>, answers: seq<Option<int>>)
    ensures SentBy(s, answers) + Unsent(Sending(s, answers)) == Unsent(s)
    decreases |answers|
  {
    var t := ToPost(s);
    ToPostHolds(s);
    if answers != [] && t.sender.Posting? {
      var u := Answered(t, answers[0]);
      calc {
        SentBy(s, answers) + Unsent(Sending(s, answers));
        (Heard(t, answers[0]) + SentBy(u, answers[1..])) + Unsent(Sending(u, answers[1..]));
        { Regrouped(Heard(t, answers[0]), SentBy(u, answers[1..]), Unsent(Sending(u, answers[1..]))); }
        Heard(t, answers[0]) + (SentBy(u, answers[1..]) + Unsent(Sending(u, answers[1..])));
        { SendingKeepsAll(u, answers[1..]); }
        Heard(t, answers[0]) + Unsent(u);
        { HeardHolds(t, answers[0]); }
        Unsent(t);
      }
    } else {
      assert [] + Unsent(t) == Unsent(t);
    }
  }

  /**
   * What a post's answer makes of its batch: taken, it is let go for the next; with no answer, or 408, 429 or a failure
   * of the service's, the very same batch is what is posted next; any other answer stops the sender with it for good.
   */
  lemma StatusDecides<M>(s: Sink<M>, answer: Option<int>, answers: seq<Option<int>>)
    requires s.sender.Posting?
    ensures var t := Answered(s, answer);
      match answer {
        case None => ToPost(t) == s
        case Some(status) =>
          if 200 <= status <= 299 then t == s.(sender := Waiting)
          else if status == 408 || status == 429 || status >= 500 then ToPost(t) == s
          else t == s.(sender := Refused(s.sender.batch)) && Sending(t, answers) == t
      }
  {
    if answer.Some? && !Taken(answer.value) && !Transient(answer.value) {
      StaysPut(Answered(s, answer), answers);
    }
  }

  /** A batch is the queue's first events, as many as there are up to the most one post carries, none skipped. */
  lemma BatchFirst<M>(s: Sink<M>)
    requires s.sender.Waiting? && s.queue != []
    ensures var t := ToPost(s);
      && t.sender.Posting? && t.sender.batch.events + t.queue == s.queue && t.sender.batch.secrets == s.secrets
      && 0 < |t.sender.batch.events| <= 256 && (t.queue != [] ==> |t.sender.batch.events| == 256)
  {
  }

  /** The sink as it runs, each of its calls updating it in place. */
  class EventSink<M> {
    var next: int
    var queue: seq<Event<M>>
    var ended: bool
    var secrets: seq<string>
    var sender: Sender<M>

    function View(): Sink<M>
      reads this
    {
      Sink(next, queue, ended, secrets, sender)
    }

    constructor (firstSequence: int, secrets: seq<string>)
      ensures View() == Opened(firstSequence, secrets)
    {
      next, queue, ended := firstSequence, [], false;
      this.secrets, sender := secrets, Waiting;
    }

    method Emit(message: M)
      modifies `next, `queue
      ensures View() == Emitted(old(View()), message)
    {
      var sequence := next;
      next := next + 1;
      if !ended {
        queue := queue + [Event(sequence, message)];
      }
    }

    method Withhold(secret: string)
      modifies `secrets
      ensures View() == Withheld(old(View()), secret)
    {
      secrets := secrets + [secret];
    }

    /** The sender's wait on the queue over: at most one post's worth of what it holds. */
    method TakeBatch()
      modifies `queue, `sender
      ensures View() == BatchTaken(old(View()))
    {
      if sender.Waiting? {
        if queue != [] {
          var n := if |queue| < BATCH_MAX then |queue| else BATCH_MAX;
          sender := Posting(Batch(queue[..n], secrets));
          queue := queue[n..];
        } else if ended {
          sender := Done;
        }
      }
    }

    method Hear(status: Option<int>)
      modifies `sender
      ensures View() == Answered(old(View()), status)
    {
      if sender.Posting? {
        var batch := sender.batch;
        if status.Some? && Taken(status.value) {
          sender := Waiting;
        } else if status.None? || Transient(status.value) {
          sender := Backing(batch);
        } else {
          sender := Refused(batch);
        }
      }
    }

    method Repost()
      modifies `sender
      ensures View() == Reposted(old(View()))
    {
      if sender.Backing? {
        sender := Posting(sender.batch);
      }
    }

    /** The sender's loop and its retries, on the answers its posts are given. */
    method SendAll(answers: seq<Option<int>>)
      modifies `queue, `sender
      ensures View() == Sending(old(View()), answers)
    {
      for i := 0 to |answers|
        invariant Sending(View(), answers[i..]) == Sending(old(View()), answers)
      {
        assert answers[i..][1..] == answers[i + 1..];
        if sender.Backing? {
          Repost();
        } else {
          TakeBatch();
        }
        if !sender.Posting? {
          StaysPut(View(), answers[i..]);
          return;
        }
        Hear(answers[i]);
      }
      if sender.Backing? {
        Repost();
      } else {
        TakeBatch();
      }
    }

    method Drain()
      modifies `ended
      ensures View() == Draining(old(View()))
    {
      ended := true;
    }
  }
}
