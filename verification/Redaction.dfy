/** The secrets taken out of everything a launch posts (`redactedText`, `redacted` and `batchText` of `events.ts`). */
module Redaction {
  import opened Basics
  import opened Text

  const REDACTED: string := "[redacted]"

  /** A value as it crosses to the service. An object's entries stand in order, each key once. */
  datatype Json =
    | JString(text: string)
    | JNumber(value: int)
    | JBool(truth: bool)
    | JNull
    | JArray(items: seq<Json>)
    | JObject(entries: seq<Entry>)

  datatype Entry = Entry(key: string, value: Json)

  function RedactedText(text: string, secrets: seq<string>): string
    requires "" !in secrets
    decreases |secrets|
  {
    if secrets == [] then text
    else RedactedText(ReplaceAll(text, secrets[0], REDACTED), secrets[1..])
  }

  /** `Object.fromEntries`: a key that comes again keeps its place and takes the later value. */
  function Assigned(entries: seq<Entry>, key: string, value: Json): seq<Entry> {
    if entries == [] then [Entry(key, value)]
    else if entries[0].key == key then [Entry(key, value)] + entries[1..]
    else [entries[0]] + Assigned(entries[1..], key, value)
  }

  function FromEntries(made: seq<Entry>, entries: seq<Entry>): seq<Entry>
    decreases |entries|
  {
    if entries == [] then made
    else FromEntries(Assigned(made, entries[0].key, entries[0].value), entries[1..])
  }

  function Redacted(value: Json, secrets: seq<string>): Json
    requires "" !in secrets
    decreases value, 1
  {
    match value
    case JString(text) => JString(RedactedText(text, secrets))
    case JArray(items) => JArray(RedactedItems(items, secrets))
    case JObject(entries) => JObject(FromEntries([], RedactedEntries(entries, secrets)))
    case _ => value
  }

  function RedactedItems(items: seq<Json>, secrets: seq<string>): seq<Json>
    requires "" !in secrets
    decreases items, 0
  {
    if items == [] then []
    else [Redacted(items[0], secrets)] + RedactedItems(items[1..], secrets)
  }

  function RedactedEntries(entries: seq<Entry>, secrets: seq<string>): seq<Entry>
    requires "" !in secrets
    decreases entries, 0
  {
    if entries == [] then []
    else
      [Entry(RedactedText(entries[0].key, secrets), Redacted(entries[0].value, secrets))]
      + RedactedEntries(entries[1..], secrets)
  }

  /** A batch's secrets as the redaction reads them: those that are not empty. */
  function Held(secrets: seq<string>): (held: seq<string>)
    ensures "" !in held
    ensures forall s :: s in held <==> s in secrets && s != ""
  {
    if secrets == [] then []
    else if secrets[0] == "" then Held(secrets[1..])
    else [secrets[0]] + Held(secrets[1..])
  }

  // ---- Complete ----

  /**
   * A secret the redaction can take out for good: not empty, and unable to stand over any of what is put in its place.
   */
  predicate Removable(secret: string) {
    secret != "" && !Touches(secret, REDACTED)
  }

  /** No text keeps a removable secret, whatever the other secrets, their order and their overlaps. */
  lemma {:induction false} StaysOut(w: string, text: string, secrets: seq<string>)
    requires "" !in secrets && Removable(w) && !Occurs(w, text)
    ensures !Occurs(w, RedactedText(text, secrets))
    decreases |secrets|
  {
    if secrets != [] {
      NothingBrought(w, text, secrets[0], REDACTED);
      StaysOut(w, ReplaceAll(text, secrets[0], REDACTED), secrets[1..]);
    }
  }

  lemma {:induction false} RedactionComplete(text: string, secrets: seq<string>, secret: string)
    requires "" !in secrets && secret in secrets && Removable(secret)
    ensures !Occurs(secret, RedactedText(text, secrets))
    decreases |secrets|
  {
    var replaced := ReplaceAll(text, secrets[0], REDACTED);
    if secret == secrets[0] {
      NothingBrought(secret, text, secret, REDACTED);
      StaysOut(secret, replaced, secrets[1..]);
    } else {
      RedactionComplete(replaced, secrets[1..], secret);
    }
  }

  lemma AgreeAt(w: string, put: string, k: int, i: nat)
    requires Agree(w, put, k) && i < |w| && 0 <= i - k < |put|
    ensures w[i] == put[i - k]
  {
  }

  /** A text with no bracket in it can stand over the word put in only strictly between its brackets. */
  lemma BracketsApart(secret: string, k: int)
    requires '[' !in secret && ']' !in secret
    requires -|REDACTED| < k < |secret| && Agree(secret, REDACTED, k)
    ensures k < 0 && |secret| - k <= 9
  {
    if k >= 0 {
      AgreeAt(secret, REDACTED, k, k);
    } else if |secret| - k > 9 {
      AgreeAt(secret, REDACTED, k, k + 9);
    }
  }

  lemma WordInside()
    ensures REDACTED[1..9] == "redacted" && |REDACTED| == 10 && |"redacted"| == 8
  {
  }

  lemma InsideTouches(secret: string, i: nat)
    requires secret != "" && i <= 8 && secret <= "redacted"[i..]
    ensures Touches(secret, REDACTED)
  {
    WordInside();
    forall j | 0 <= j < |secret| ensures secret[j] == REDACTED[j + i + 1] {
      assert secret[j] == "redacted"[i..][j] == REDACTED[1..9][i + j];
    }
    assert Agree(secret, REDACTED, -(i + 1));
  }

  lemma TouchesInside(secret: string, k: int)
    requires '[' !in secret && ']' !in secret
    requires -|REDACTED| < k < |secret| && Agree(secret, REDACTED, k)
    ensures 0 <= -k - 1 <= 8 && secret <= "redacted"[-k - 1..]
  {
    WordInside();
    BracketsApart(secret, k);
    var i := -k - 1;
    forall j | 0 <= j < |secret| ensures secret[j] == "redacted"[i..][j] {
      AgreeAt(secret, REDACTED, k, j);
      assert REDACTED[j - k] == REDACTED[1..9][j - k - 1];
    }
  }

  /** A secret with no bracket in it is removable exactly where it is not part of the word `redacted`. */
  lemma BracketFree(secret: string)
    requires secret != "" && '[' !in secret && ']' !in secret
    ensures Removable(secret) <==> !Occurs(secret, "redacted")
  {
    OccursAt(secret, "redacted");
    if k :| -|REDACTED| < k < |secret| && Agree(secret, REDACTED, k) {
      TouchesInside(secret, k);
    }
    if i :| 0 <= i <= |"redacted"| && secret <= "redacted"[i..] {
      InsideTouches(secret, i);
    }
  }

  /** A text that holds what is put in holds it still, whatever is taken out of it. */
  lemma {:induction false} WordStays(text: string, secrets: seq<string>)
    requires "" !in secrets && Occurs(REDACTED, text)
    ensures Occurs(REDACTED, RedactedText(text, secrets))
    decreases |secrets|
  {
    if secrets != [] {
      if Occurs(secrets[0], text) {
        ReplacePuts(text, secrets[0], REDACTED);
      } else {
        ReplaceNothing(text, secrets[0], REDACTED);
      }
      WordStays(ReplaceAll(text, secrets[0], REDACTED), secrets[1..]);
    }
  }

  ghost predicate Complete(secrets: seq<string>)
    requires "" !in secrets
  {
    forall text, secret :: secret in secrets ==> !Occurs(secret, RedactedText(text, secrets))
  }

  /**
   * For secrets with no bracket in them, the redaction is complete on every text exactly where none of them is part of
   * the word it puts in: for one that is, the word itself is the text it is left in.
   */
  lemma CompleteExactly(secrets: seq<string>)
    requires "" !in secrets
    requires forall s :: s in secrets ==> '[' !in s && ']' !in s
    ensures Complete(secrets) <==> forall s :: s in secrets ==> !Occurs(s, "redacted")
  {
    if forall s :: s in secrets ==> !Occurs(s, "redacted") {
      forall text, secret | secret in secrets ensures !Occurs(secret, RedactedText(text, secrets)) {
        BracketFree(secret);
        RedactionComplete(text, secrets, secret);
      }
    } else {
      var s :| s in secrets && Occurs(s, "redacted");
      WordStays(REDACTED, secrets);
      OccursWithin(s, "[", "redacted", "]");
      assert "[" + "redacted" + "]" == REDACTED;
      OccursTrans(s, REDACTED, RedactedText(REDACTED, secrets));
    }
  }

  // ---- In a whole tree ----

  /** Whether a text occurs in some string of a value, keys included. */
  predicate OccursIn(w: string, value: Json)
    decreases value, 1
  {
    match value
    case JString(text) => Occurs(w, text)
    case JArray(items) => OccursInItems(w, items)
    case JObject(entries) => OccursInEntries(w, entries)
    case _ => false
  }

  predicate OccursInItems(w: string, items: seq<Json>)
    decreases items, 0
  {
    items != [] && (OccursIn(w, items[0]) || OccursInItems(w, items[1..]))
  }

  predicate OccursInEntries(w: string, entries: seq<Entry>)
    decreases entries, 0
  {
    entries != [] && (Occurs(w, entries[0].key) || OccursIn(w, entries[0].value) || OccursInEntries(w, entries[1..]))
  }

  lemma {:induction false} AssignedBrings(w: string, made: seq<Entry>, key: string, value: Json)
    requires !OccursInEntries(w, made) && !Occurs(w, key) && !OccursIn(w, value)
    ensures !OccursInEntries(w, Assigned(made, key, value))
    decreases |made|
  {
    if made != [] && made[0].key != key {
      AssignedBrings(w, made[1..], key, value);
      assert Assigned(made, key, value)[1..] == Assigned(made[1..], key, value);
    } else {
      assert Assigned(made, key, value)[1..] == if made == [] then [] else made[1..];
    }
  }

  lemma {:induction false} FromEntriesBrings(w: string, made: seq<Entry>, entries: seq<Entry>)
    requires !OccursInEntries(w, made) && !OccursInEntries(w, entries)
    ensures !OccursInEntries(w, FromEntries(made, entries))
    decreases |entries|
  {
    if entries != [] {
      AssignedBrings(w, made, entries[0].key, entries[0].value);
      FromEntriesBrings(w, Assigned(made, entries[0].key, entries[0].value), entries[1..]);
    }
  }

  /** No string and no key of a value, however deep, keeps a removable secret. */
  lemma {:induction false} TreeComplete(value: Json, secrets: seq<string>, secret: string)
    requires "" !in secrets && secret in secrets && Removable(secret)
    ensures !OccursIn(secret, Redacted(value, secrets))
    decreases value, 1
  {
    match value
    case JString(text) => RedactionComplete(text, secrets, secret);
    case JArray(items) => ItemsComplete(items, secrets, secret);
    case JObject(entries) =>
      EntriesComplete(entries, secrets, secret);
      FromEntriesBrings(secret, [], RedactedEntries(entries, secrets));
    case _ =>
  }

  lemma {:induction false} ItemsComplete(items: seq<Json>, secrets: seq<string>, secret: string)
    requires "" !in secrets && secret in secrets && Removable(secret)
    ensures !OccursInItems(secret, RedactedItems(items, secrets))
    decreases items, 0
  {
    if items != [] {
      TreeComplete(items[0], secrets, secret);
      ItemsComplete(items[1..], secrets, secret);
      assert RedactedItems(items, secrets)[1..] == RedactedItems(items[1..], secrets);
    }
  }

  lemma {:induction false} EntriesComplete(entries: seq<Entry>, secrets: seq<string>, secret: string)
    requires "" !in secrets && secret in secrets && Removable(secret)
    ensures !OccursInEntries(secret, RedactedEntries(entries, secrets))
    decreases entries, 0
  {
    if entries != [] {
      RedactionComplete(entries[0].key, secrets, secret);
      TreeComplete(entries[0].value, secrets, secret);
      EntriesComplete(entries[1..], secrets, secret);
      assert RedactedEntries(entries, secrets)[1..] == RedactedEntries(entries[1..], secrets);
    }
  }

  /** A text no secret occurs in crosses as it is. */
  lemma {:induction false} CleanTextKept(text: string, secrets: seq<string>)
    requires "" !in secrets && forall s :: s in secrets ==> !Occurs(s, text)
    ensures RedactedText(text, secrets) == text
    decreases |secrets|
  {
    if secrets != [] {
      ReplaceNothing(text, secrets[0], REDACTED);
      CleanTextKept(text, secrets[1..]);
    }
  }

  /** Secrets are taken out one after another, in the order they are held. */
  lemma {:induction false} TakenOutInOrder(text: string, first: seq<string>, later: seq<string>)
    requires "" !in first && "" !in later
    ensures RedactedText(text, first + later) == RedactedText(RedactedText(text, first), later)
    decreases |first|
  {
    if first == [] {
      assert first + later == later;
    } else {
      assert (first + later)[0] == first[0] && (first + later)[1..] == first[1..] + later;
      TakenOutInOrder(ReplaceAll(text, first[0], REDACTED), first[1..], later);
    }
  }

  /** One secret's redaction: the text between its occurrences as it was, and the word put in for each of them. */
  lemma OneTakenOut(text: string, secret: string) returns (pieces: seq<string>)
    requires secret != ""
    ensures pieces != [] && AllLead(pieces, secret) && !Occurs(secret, pieces[|pieces| - 1])
    ensures Glued(pieces, secret) == text && RedactedText(text, [secret]) == Glued(pieces, REDACTED)
  {
    pieces := ReplacedBetween(text, secret, REDACTED);
    assert [secret][1..] == [];
  }

  /** A text that does not hold the word already crosses as it is exactly where no secret occurs in it. */
  lemma {:induction false} TextKeptExactly(text: string, secrets: seq<string>)
    requires "" !in secrets && !Occurs(REDACTED, text)
    ensures RedactedText(text, secrets) == text <==> forall s :: s in secrets ==> !Occurs(s, text)
    ensures RedactedText(text, secrets) == text || Occurs(REDACTED, RedactedText(text, secrets))
    decreases |secrets|
  {
    if secrets != [] {
      assert secrets[0] in secrets;
      if Occurs(secrets[0], text) {
        ReplacePuts(text, secrets[0], REDACTED);
        WordStays(ReplaceAll(text, secrets[0], REDACTED), secrets[1..]);
      } else {
        ReplaceNothing(text, secrets[0], REDACTED);
        TextKeptExactly(text, secrets[1..]);
      }
    }
  }

  // ---- What a tree keeps ----

  /** An array keeps its items, as many and each at its place, redacted on its own. */
  lemma {:induction false} ItemsEach(items: seq<Json>, secrets: seq<string>)
    requires "" !in secrets
    ensures |RedactedItems(items, secrets)| == |items|
    ensures forall i :: 0 <= i < |items| ==> RedactedItems(items, secrets)[i] == Redacted(items[i], secrets)
  {
    if items != [] {
      ItemsEach(items[1..], secrets);
    }
  }

  lemma {:induction false} EntriesEach(entries: seq<Entry>, secrets: seq<string>)
    requires "" !in secrets
    ensures |RedactedEntries(entries, secrets)| == |entries|
    ensures forall i :: 0 <= i < |entries| ==>
      RedactedEntries(entries, secrets)[i]
      == Entry(RedactedText(entries[i].key, secrets), Redacted(entries[i].value, secrets))
  {
    if entries != [] {
      EntriesEach(entries[1..], secrets);
    }
  }

  predicate KeysApart(entries: seq<Entry>) {
    forall i, j :: 0 <= i < j < |entries| ==> entries[i].key != entries[j].key
  }

  predicate HasKey(entries: seq<Entry>, key: string) {
    exists i :: 0 <= i < |entries| && entries[i].key == key
  }

  lemma {:induction false} AssignedNew(made: seq<Entry>, key: string, value: Json)
    requires !HasKey(made, key)
    ensures Assigned(made, key, value) == made + [Entry(key, value)]
  {
    if made != [] {
      assert made[0].key != key;
      assert !HasKey(made[1..], key) by {
        forall i | 0 <= i < |made[1..]| ensures made[1..][i].key != key {
          assert made[1..][i] == made[i + 1];
        }
      }
      AssignedNew(made[1..], key, value);
      assert made == [made[0]] + made[1..];
    }
  }

  /** Entries under keys all different stand as they were listed. */
  lemma {:induction false} FromEntriesApart(made: seq<Entry>, entries: seq<Entry>)
    requires KeysApart(made + entries)
    ensures FromEntries(made, entries) == made + entries
    decreases |entries|
  {
    if entries == [] {
      assert made + entries == made;
    } else {
      var all := made + entries;
      forall i | 0 <= i < |made| ensures made[i].key != entries[0].key {
        assert all[i] == made[i] && all[|made|] == entries[0];
      }
      AssignedNew(made, entries[0].key, entries[0].value);
      assert made + [Entry(entries[0].key, entries[0].value)] + entries[1..] == all;
      FromEntriesApart(made + [entries[0]], entries[1..]);
    }
  }

  /** The value last listed under a key. */
  function LastUnder(entries: seq<Entry>, key: string): Option<Json> {
    if entries == [] then None
    else
      var last := entries[|entries| - 1];
      if last.key == key then Some(last.value) else LastUnder(entries[..|entries| - 1], key)
  }

  function Lookup(entries: seq<Entry>, key: string): Option<Json> {
    if entries == [] then None
    else if entries[0].key == key then Some(entries[0].value)
    else Lookup(entries[1..], key)
  }

  lemma {:induction false} AssignedLookup(made: seq<Entry>, key: string, value: Json, asked: string)
    ensures Lookup(Assigned(made, key, value), asked) == if asked == key then Some(value) else Lookup(made, asked)
  {
    if made == [] || made[0].key == key {
      assert made == [] || ([Entry(key, value)] + made[1..])[1..] == made[1..];
      assert made == [] ==> [Entry(key, value)][1..] == [];
    } else {
      AssignedLookup(made[1..], key, value, asked);
      assert ([made[0]] + Assigned(made[1..], key, value))[1..] == Assigned(made[1..], key, value);
    }
  }

  lemma {:induction false} FromEntriesSnoc(made: seq<Entry>, entries: seq<Entry>, last: Entry)
    ensures FromEntries(made, entries + [last]) == Assigned(FromEntries(made, entries), last.key, last.value)
    decreases |entries|
  {
    if entries == [] {
      assert entries + [last] == [last] && [last][1..] == [];
      assert FromEntries(made, [last]) == FromEntries(Assigned(made, last.key, last.value), [last][1..]);
    } else {
      assert (entries + [last])[0] == entries[0] && (entries + [last])[1..] == entries[1..] + [last];
      FromEntriesSnoc(Assigned(made, entries[0].key, entries[0].value), entries[1..], last);
    }
  }

  /** Where redacted keys come to the same, the object holds under each the value that came last. */
  lemma {:induction false} LastValueStands(entries: seq<Entry>, key: string)
    ensures Lookup(FromEntries([], entries), key) == LastUnder(entries, key)
    decreases |entries|
  {
    if entries != [] {
      var before, last := entries[..|entries| - 1], entries[|entries| - 1];
      assert entries == before + [last];
      FromEntriesSnoc([], before, last);
      LastValueStands(before, key);
      AssignedLookup(FromEntries([], before), last.key, last.value, key);
    }
  }

  /** Every object of a value, however deep, has its keys all different. */
  predicate Apart(value: Json)
    decreases value, 1
  {
    match value
    case JArray(items) => ItemsApart(items)
    case JObject(entries) => KeysApart(entries) && EntriesApart(entries)
    case _ => true
  }

  predicate ItemsApart(items: seq<Json>)
    decreases items, 0
  {
    items == [] || (Apart(items[0]) && ItemsApart(items[1..]))
  }

  predicate EntriesApart(entries: seq<Entry>)
    decreases entries, 0
  {
    entries == [] || (Apart(entries[0].value) && EntriesApart(entries[1..]))
  }

  /** No secret occurs in any string or key of a value. */
  predicate Clean(value: Json, secrets: seq<string>) {
    forall s :: s in secrets ==> !OccursIn(s, value)
  }

  /** A value no secret occurs in crosses as it is, whatever it is made of. */
  lemma {:induction false} CleanTreeKept(value: Json, secrets: seq<string>)
    requires "" !in secrets && Apart(value) && Clean(value, secrets)
    ensures Redacted(value, secrets) == value
    decreases value, 1
  {
    match value
    case JString(text) =>
      assert forall s :: s in secrets ==> OccursIn(s, value) == Occurs(s, text);
      CleanTextKept(text, secrets);
    case JArray(items) =>
      assert forall s :: s in secrets ==> OccursIn(s, value) == OccursInItems(s, items);
      CleanItemsKept(items, secrets);
    case JObject(entries) =>
      assert forall s :: s in secrets ==> OccursIn(s, value) == OccursInEntries(s, entries);
      CleanEntriesKept(entries, secrets);
      assert [] + entries == entries;
      FromEntriesApart([], entries);
    case _ =>
  }

  lemma {:induction false} CleanItemsKept(items: seq<Json>, secrets: seq<string>)
    requires "" !in secrets && ItemsApart(items) && forall s :: s in secrets ==> !OccursInItems(s, items)
    ensures RedactedItems(items, secrets) == items
    decreases items, 0
  {
    if items != [] {
      CleanTreeKept(items[0], secrets);
      CleanItemsKept(items[1..], secrets);
    }
  }

  lemma {:induction false} CleanEntriesKept(entries: seq<Entry>, secrets: seq<string>)
    requires "" !in secrets && EntriesApart(entries) && forall s :: s in secrets ==> !OccursInEntries(s, entries)
    ensures RedactedEntries(entries, secrets) == entries
    decreases entries, 0
  {
    if entries != [] {
      CleanTextKept(entries[0].key, secrets);
      CleanTreeKept(entries[0].value, secrets);
      CleanEntriesKept(entries[1..], secrets);
    }
  }
}
