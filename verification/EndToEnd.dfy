/**
 * A launch heard through its sink: what the service may conclude from the events it has applied, of a controller it
 * never sees (`packages/agent-runner/src/codex.ts` emitting into `packages/agent-runner/src/events.ts`).
 */
module EndToEnd {
  import opened Basics
  import opened Launch
  import opened LaunchHistory
  import opened LaunchProofs
  import opened Events
  import opened Text
  import opened Redaction
  import Delivery

  /**
   * What a launch of Codex emits: its own ACCEPTED and IDLE, and among them whatever else, as app-server's
   * notifications.
   */
  datatype RunnerMessage = AcceptedEvent(line: Id) | IdleEvent | OtherEvent(text: string)

  /** The launch's own messages, in the order its history says it said them. */
  function Said(h: History): seq<RunnerMessage> {
    match h
    case Nothing => []
    case Then(before, SaidAccepted(line)) => Said(before) + [AcceptedEvent(line)]
    case Then(before, SaidIdle) => Said(before) + [IdleEvent]
    case Then(before, _) => Said(before)
  }

  function Own(messages: seq<RunnerMessage>): seq<RunnerMessage> {
    if messages == [] then []
    else
      var last := messages[|messages| - 1];
      Own(messages[..|messages| - 1]) + if last.OtherEvent? then [] else [last]
  }

  lemma {:induction false} OwnPrefix(a: seq<RunnerMessage>, b: seq<RunnerMessage>)
    requires a <= b
    ensures Own(a) <= Own(b)
    decreases |b|
  {
    if |a| < |b| {
      OwnPrefix(a, b[..|b| - 1]);
    } else {
      assert a == b;
    }
  }

  function Times(messages: seq<RunnerMessage>, message: RunnerMessage): nat {
    multiset(messages)[message]
  }

  lemma {:induction false} SaidTimes(h: History, line: Id)
    ensures Times(Said(h), AcceptedEvent(line)) == TimesAccepted(h, line)
  {
    if h.Then? {
      SaidTimes(h.before, line);
      SaidOnceMore(h, line);
    }
  }

  lemma SaidOnceMore(h: History, line: Id)
    requires h.Then?
    ensures Times(Said(h), AcceptedEvent(line))
      == Times(Said(h.before), AcceptedEvent(line)) + if h.now == SaidAccepted(line) then 1 else 0
  {
  }

  /** The moment of a history at which it had said the first `n` of its messages, the next of them about to be said. */
  lemma {:induction false} MomentSaid(h: History, n: nat) returns (before: History, now: Happening)
    requires n < |Said(h)|
    ensures Extends(h, Then(before, now)) && Said(before) == Said(h)[..n]
    ensures now.SaidAccepted? || now.SaidIdle?
    ensures Said(h)[n] == if now.SaidAccepted? then AcceptedEvent(now.line) else IdleEvent
  {
    if |Said(h.before)| <= n {
      before, now := h.before, h.now;
    } else {
      before, now := MomentSaid(h.before, n);
      assert Said(h)[..n] == Said(h.before)[..n] && Said(h)[n] == Said(h.before)[n];
    }
  }

  lemma {:induction false} SaidCovers(h: History, line: Id)
    requires line in AcceptedLines(h)
    ensures AcceptedEvent(line) in Said(h)
  {
    if h.before.Then? || h.now.SaidAccepted? {
      if !(h.now == SaidAccepted(line)) {
        SaidCovers(h.before, line);
      }
    }
  }

  lemma TimesPrefix(a: seq<RunnerMessage>, b: seq<RunnerMessage>, message: RunnerMessage)
    requires a <= b
    ensures Times(a, message) <= Times(b, message)
  {
    assert b == a + b[|a|..];
  }

  /**
   * Whatever the network does to the posts of a launch, and whatever the world does to the launch: the service applies
   * ACCEPTED of no line twice; and by the time it applies an IDLE, it has applied ACCEPTED of every line the launch had
   * read when it said that IDLE, each of which a turn had taken.
   */
  lemma HeardInFull(c: Config, script: seq<Moment>, n: nat,
                    first: int, secrets: seq<string>, acts: seq<Delivery.Act<RunnerMessage>>, line: Id)
    requires NoRepeat(ScriptIds(script))
    requires Own(Delivery.Offered(acts)) <= Said(After(c, Start(c, script), n).s.told)
    ensures var h := After(c, Start(c, script), n).s.told;
            var heard := Own(Delivery.MessagesOf(Delivery.After(Delivery.Start(first, secrets), acts).applied));
            && heard <= Said(h)
            && Times(heard, AcceptedEvent(line)) <= 1
            && (forall i :: 0 <= i < |heard| && heard[i] == IdleEvent ==>
                  exists before :: Extends(h, Then(before, SaidIdle)) && Said(before) == heard[..i]
                                   && AnsweredIn(before, heard[..i]))
  {
    var h := After(c, Start(c, script), n).s.told;
    var w := Delivery.After(Delivery.Start(first, secrets), acts);
    EveryRun(c, script, n);
    Delivery.OfferedDelivered(first, secrets, acts);
    var heard := Own(Delivery.MessagesOf(w.applied));
    OwnPrefix(Delivery.MessagesOf(w.applied), Delivery.Offered(acts));
    TimesPrefix(heard, Said(h), AcceptedEvent(line));
    SaidTimes(h, line);
    AcceptedOnce(h, line);
    forall i | 0 <= i < |heard| && heard[i] == IdleEvent
      ensures exists before :: Extends(h, Then(before, SaidIdle)) && Said(before) == heard[..i]
                               && AnsweredIn(before, heard[..i])
    {
      var before := IdleHeard(h, heard, i);
    }
  }

  lemma IdleHeard(h: History, heard: seq<RunnerMessage>, i: nat) returns (before: History)
    requires WellTold(h) && heard <= Said(h) && i < |heard| && heard[i] == IdleEvent
    ensures Extends(h, Then(before, SaidIdle)) && Said(before) == heard[..i] && AnsweredIn(before, heard[..i])
  {
    assert heard[i] == Said(h)[i] && Said(h)[..i] == heard[..i];
    var now;
    before, now := MomentSaid(h, i);
    IdleAnswered(h, before);
  }

  /** Every line read was taken, and ACCEPTED of it is among the messages. */
  ghost predicate AnsweredIn(h: History, messages: seq<RunnerMessage>) {
    forall l :: l in Arrivals(h) ==> l in TakenLines(h) && AcceptedEvent(l) in messages
  }

  lemma {:induction false} WellToldBefore(h: History, earlier: History)
    requires WellTold(h) && Extends(h, earlier)
    ensures WellTold(earlier)
  {
    if h != earlier {
      WellToldBefore(h.before, earlier);
    }
  }

  lemma IdleAnswered(h: History, before: History)
    requires WellTold(h) && Extends(h, Then(before, SaidIdle))
    ensures AnsweredIn(before, Said(before))
  {
    WellToldBefore(h, Then(before, SaidIdle));
    forall l | l in Arrivals(before) ensures l in TakenLines(before) && AcceptedEvent(l) in Said(before) {
      assert l in multiset(Arrivals(before));
      TakenOnce(before, l);
      SaidCovers(before, l);
    }
  }

  // ---- secrets ----

  /** A batch as JSON, each event by whatever it is spelled as. */
  function BatchJson<M>(spelled: Event<M> -> Json, events: seq<Event<M>>): Json {
    JObject([Entry("events", JArray(SpelledEach(spelled, events)))])
  }

  function SpelledEach<M>(spelled: Event<M> -> Json, events: seq<Event<M>>): seq<Json> {
    if events == [] then [] else [spelled(events[0])] + SpelledEach(spelled, events[1..])
  }

  /** What a post of a batch carries. */
  function Carried<M>(spelled: Event<M> -> Json, batch: Batch<M>): Json {
    Redacted(BatchJson(spelled, batch.events), Redaction.Held(batch.secrets))
  }

  /**
   * Once a secret is withheld, and no batch older than that is held, no post made from then on carries it, in any
   * string or key, whatever was emitted and whatever the network does: where the secret can be taken out at all.
   */
  lemma PostsCarryNoSecret<M>(
    spelled: Event<M> -> Json, w: Delivery.World<M>, acts: seq<Delivery.Act<M>>, secret: string, i: nat
  )
    requires secret in w.sink.secrets && Delivery.HoldsNoneOlder(w, secret) && Removable(secret)
    requires |w.posts| <= i < |Delivery.Onward(w, acts).posts|
    ensures !OccursIn(secret, Carried(spelled, Delivery.Onward(w, acts).posts[i]))
  {
    Delivery.WithheldFromNextBatch(w, acts, secret);
    var batch := Delivery.Onward(w, acts).posts[i];
    TreeComplete(BatchJson(spelled, batch.events), Redaction.Held(batch.secrets), secret);
  }

  lemma {:induction false} SpelledIs<M>(spelled: Event<M> -> Json, events: seq<Event<M>>)
    ensures |SpelledEach(spelled, events)| == |events|
    ensures forall i :: 0 <= i < |events| ==> SpelledEach(spelled, events)[i] == spelled(events[i])
  {
    if events != [] {
      SpelledIs(spelled, events[1..]);
    }
  }

  /** A post carries every event of its batch, each in its place and redacted on its own. */
  lemma PostCarriesEach<M>(spelled: Event<M> -> Json, batch: Batch<M>) returns (items: seq<Json>)
    ensures Carried(spelled, batch)
      == JObject([Entry(RedactedText("events", Redaction.Held(batch.secrets)), JArray(items))])
    ensures |items| == |batch.events|
    ensures forall i :: 0 <= i < |items| ==>
      items[i] == Redacted(spelled(batch.events[i]), Redaction.Held(batch.secrets))
  {
    var secrets := Redaction.Held(batch.secrets);
    items := RedactedItems(SpelledEach(spelled, batch.events), secrets);
    SpelledIs(spelled, batch.events);
    ItemsEach(SpelledEach(spelled, batch.events), secrets);
    OneEntry("events", JArray(SpelledEach(spelled, batch.events)), secrets);
  }

  lemma OneEntry(key: string, value: Json, secrets: seq<string>)
    requires "" !in secrets
    ensures Redacted(JObject([Entry(key, value)]), secrets)
      == JObject([Entry(RedactedText(key, secrets), Redacted(value, secrets))])
  {
    var entries := [Entry(key, value)];
    var redacted := [Entry(RedactedText(key, secrets), Redacted(value, secrets))];
    EntriesEach(entries, secrets);
    assert RedactedEntries(entries, secrets) == redacted && [] + redacted == redacted;
    FromEntriesApart([], redacted);
  }

  /** A post's own key is scrubbed with the rest: it stands exactly where no secret held is part of the word. */
  lemma EventsKeyKept(secrets: seq<string>)
    requires "" !in secrets
    ensures RedactedText("events", secrets) == "events" <==> forall s :: s in secrets ==> !Occurs(s, "events")
  {
    if Occurs(REDACTED, "events") {
      OccursAt(REDACTED, "events");
      assert false;
    }
    TextKeptExactly("events", secrets);
  }

  lemma {:induction false} SpelledApart<M(!new)>(spelled: Event<M> -> Json, events: seq<Event<M>>)
    requires forall e :: e in events ==> Apart(spelled(e))
    ensures ItemsApart(SpelledEach(spelled, events))
  {
    if events != [] {
      SpelledApart(spelled, events[1..]);
      assert events[0] in events;
    }
  }

  lemma OneApart(key: string, value: Json)
    requires Apart(value)
    ensures Apart(JObject([Entry(key, value)]))
  {
    var entries := [Entry(key, value)];
    assert entries[1..] == [] && EntriesApart(entries[1..]);
    assert KeysApart(entries) && EntriesApart(entries);
  }

  /** A batch no secret occurs in is posted as it is, every event whole. */
  lemma CleanPostWhole<M(!new)>(spelled: Event<M> -> Json, batch: Batch<M>)
    requires forall e :: e in batch.events ==> Apart(spelled(e))
    requires Clean(BatchJson(spelled, batch.events), Redaction.Held(batch.secrets))
    ensures Carried(spelled, batch) == BatchJson(spelled, batch.events)
  {
    SpelledApart(spelled, batch.events);
    OneApart("events", JArray(SpelledEach(spelled, batch.events)));
    CleanTreeKept(BatchJson(spelled, batch.events), Redaction.Held(batch.secrets));
  }
}
