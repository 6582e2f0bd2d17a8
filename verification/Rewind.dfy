/** The search a rewound launch makes for the turn to revert: back from its thread's end, a page of turns at a time. */
module Rewind {
  import opened Basics

  datatype Item = UserMessage(clientId: string) | OtherItem

  datatype Turn = Turn(id: string, items: seq<Item>)

  /** A page of turns, the newest first; `more` where another follows it. */
  datatype Page = Page(turns: seq<Turn>, more: bool)

  /** App-server's answer to a page asked for: a page, something that reads as none, or a refusal. */
  datatype Answer = Listed(page: Page) | Unreadable | Refused

  /** The search's end: the turn asked to be reverted, the thread left whole, or a page still awaited. */
  datatype Found = Reverting(turn: string) | LeftWhole | Failed | Awaiting

  predicate Takes(turn: Turn, message: string) {
    exists i :: 0 <= i < |turn.items| && turn.items[i] == UserMessage(message)
  }

  /** `find`: the first turn of a page that took the message. */
  function FirstTaking(turns: seq<Turn>, message: string): Option<Turn> {
    if turns == [] then None
    else if Takes(turns[0], message) then Some(turns[0])
    else FirstTaking(turns[1..], message)
  }

  function Sought(answers: seq<Answer>, message: string): Found {
    if answers == [] then Awaiting
    else match answers[0]
      case Refused => Failed
      case Unreadable => LeftWhole
      case Listed(page) =>
        var taking := FirstTaking(page.turns, message);
        if taking.Some? then Reverting(taking.value.id)
        else if !page.more then LeftWhole
        else Sought(answers[1..], message)
  }

  /** The loop: one page asked for at a time, until one of them settles it. */
  method RevertedBefore(answers: seq<Answer>, message: string) returns (found: Found)
    ensures found == Sought(answers, message)
  {
    for i := 0 to |answers|
      invariant Sought(answers, message) == Sought(answers[i..], message)
    {
      assert answers[i..][1..] == answers[i + 1..];
      match answers[i]
      case Refused => return Failed;
      case Unreadable => return LeftWhole;
      case Listed(page) =>
        var taking := FirstTaking(page.turns, message);
        if taking.Some? {
          return Reverting(taking.value.id);
        }
        if !page.more {
          return LeftWhole;
        }
    }
    return Awaiting;
  }

  /**
   * Pages that list a thread's turns from its end, in order and once each, however they are cut, the last saying so.
   */
  predicate Lists(answers: seq<Answer>, thread: seq<Turn>)
    decreases |answers|
  {
    && answers != [] && answers[0].Listed?
    && var page := answers[0].page;
       if page.more then page.turns <= thread && Lists(answers[1..], thread[|page.turns|..]) else page.turns == thread
  }

  lemma {:induction false} TakingConcat(a: seq<Turn>, b: seq<Turn>, message: string)
    ensures FirstTaking(a + b, message)
      == if FirstTaking(a, message).Some? then FirstTaking(a, message) else FirstTaking(b, message)
  {
    if a == [] {
      assert a + b == b;
    } else {
      assert (a + b)[0] == a[0] && (a + b)[1..] == a[1..] + b;
      TakingConcat(a[1..], b, message);
    }
  }

  /** However a thread is cut into pages, what is reverted is the thread's newest turn that took the message. */
  lemma {:induction false} PagesSearched(answers: seq<Answer>, thread: seq<Turn>, message: string)
    requires Lists(answers, thread)
    ensures var taking := FirstTaking(thread, message);
      Sought(answers, message) == if taking.Some? then Reverting(taking.value.id) else LeftWhole
    decreases |answers|
  {
    var page := answers[0].page;
    if page.more {
      var rest := thread[|page.turns|..];
      assert thread == page.turns + rest;
      TakingConcat(page.turns, rest, message);
      PagesSearched(answers[1..], rest, message);
    }
  }

  /** Pages that each say another follows, none of whose turns took the message. */
  predicate Passed(answers: seq<Answer>, message: string) {
    forall i :: 0 <= i < |answers| ==>
      answers[i].Listed? && answers[i].page.more
      && forall j :: 0 <= j < |answers[i].page.turns| ==> !Takes(answers[i].page.turns[j], message)
  }

  /** Past such pages a refusal fails the search, an answer that is no page ends it, and with none it waits. */
  lemma {:induction false} SearchEnds(passed: seq<Answer>, message: string, after: seq<Answer>)
    requires Passed(passed, message)
    ensures Sought(passed + [Refused] + after, message) == Failed
    ensures Sought(passed + [Unreadable] + after, message) == LeftWhole
    ensures Sought(passed, message) == Awaiting
  {
    if passed == [] {
      assert [] + [Refused] + after == [Refused] + after && [] + [Unreadable] + after == [Unreadable] + after;
    } else {
      var rest := passed[1..];
      assert Passed(rest, message) by {
        forall i | 0 <= i < |rest| ensures rest[i] == passed[i + 1] {
        }
      }
      SearchEnds(rest, message, after);
      NoneTaking(passed[0].page.turns, message);
      assert (passed + [Refused] + after)[1..] == rest + [Refused] + after;
      assert (passed + [Unreadable] + after)[1..] == rest + [Unreadable] + after;
    }
  }

  lemma NoneTaking(turns: seq<Turn>, message: string)
    requires forall j :: 0 <= j < |turns| ==> !Takes(turns[j], message)
    ensures FirstTaking(turns, message) == None
  {
    var i := NewestTaking(turns, message);
  }

  /** The newest turn of a thread that took a message, the thread listed from its end. */
  predicate Newest(turns: seq<Turn>, i: int, message: string) {
    0 <= i < |turns| && Takes(turns[i], message) && forall j :: 0 <= j < i ==> !Takes(turns[j], message)
  }

  lemma {:induction false} NewestTaking(turns: seq<Turn>, message: string) returns (i: int)
    ensures if FirstTaking(turns, message).Some?
      then Newest(turns, i, message) && turns[i] == FirstTaking(turns, message).value
      else forall j :: 0 <= j < |turns| ==> !Takes(turns[j], message)
  {
    i := 0;
    if turns != [] && !Takes(turns[0], message) {
      var later := NewestTaking(turns[1..], message);
      assert forall j :: 1 <= j < |turns| ==> turns[j] == turns[1..][j - 1];
      i := later + 1;
    }
  }

  /** The rewind cuts from the newest turn that took the message, and cuts nothing exactly where no turn took it. */
  lemma NewestReverted(answers: seq<Answer>, thread: seq<Turn>, message: string)
    requires Lists(answers, thread)
    ensures Sought(answers, message) == LeftWhole <==> forall i :: 0 <= i < |thread| ==> !Takes(thread[i], message)
    ensures forall i :: Newest(thread, i, message) ==> Sought(answers, message) == Reverting(thread[i].id)
  {
    PagesSearched(answers, thread, message);
    var newest := NewestTaking(thread, message);
    forall i | Newest(thread, i, message) ensures Sought(answers, message) == Reverting(thread[i].id) {
      assert i == newest;
    }
  }
}
