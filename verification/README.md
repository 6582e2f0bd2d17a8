# A model of the agent runner's delivery machine, the request-routing compiler, and the changelog's printers

This project models the parts of the repository whose behaviour rests on several functions at once, and proves what their
comments promise. Everything stated is checked by Dafny's verifier; nothing of the repository itself is executed.

## What is modelled

**The launch of Codex** (`packages/agent-runner/src/codex.ts`). `Launch.dfy` states each step of the controller as a
function of its state: the running turn, the messages sent and those waiting, the lines said accepted, the stop, and
whether it is warm. The world is a finite script of moments: every request the controller makes is answered by the next
moment, which also appends whatever signals arrived meanwhile, any at all; with the script at its end a request waits for
good and counts as one that failed, and a launch that waits for a signal stays where it is. `takeTurnCompleted`, its drain
and `takeSignal` call one another, and the recursion ends because every signal taken leaves fewer signals queued and
arrivals still in the script. `LaunchHistory.dfy` keeps what happened in order: lines read, requests made, messages
reported taken, events said. `LaunchProofs.dfy` proves the invariant of every run, and `LaunchTheorems.dfy` what the
service may rely on; `LaunchReads.dfy` accounts for the signals a run acts on, `LaunchOutcomes.dfy` says how each kind of
signal leaves a launch, `LaunchIdles.dfy` how often IDLE is said over one rest, and `LaunchRuns.dfy` gives the runs, from a
launch's start, that come to the states where a promise fails. `LaunchController.dfy` is the controller as it runs, a class
whose fields the methods update, each proved to take exactly its step.

**The event sink** (`events.ts`). `Events.dfy` holds the sink, a class that numbers, batches, posts, retries, stops on a
refusal and drains. `Delivery.dfy` puts it in a world whose network may lose, delay and repeat every post and answer, with
a service that applies each number at most once (the contract at `protocol.ts:754-757`) and may fail half way through a
batch. `Redaction.dfy` is the redaction of a batch, over strings and over whole trees. `EndToEnd.dfy` composes the launch
with the sink: what the service may conclude of a controller it never sees.

**The line reader** (`lines.ts`) in `Lines.dfy`, **the JSON-RPC client** (`app-server.ts`) in `AppServer.dfy`, **the
rollout mirror** (`codex-rollout.ts`) in `Rollout.dfy`, over `Cutting.dfy`'s bytes, lines and UTF-8, and **the rewind's
search** (`codex.ts:862-889`) in `Rewind.dfy`.

**The request-routing compiler** (`apps/web/server`). `Patterns.dfy` reads a rewrite's pattern from its own source text,
escapes included, and matches it as a regular expression does, greedily and giving back; it writes a destination's `$n` as
`String.prototype.replace` does. `Functions.dfy` groups routes into functions, `Rewrites.dfy` compiles them to the table,
`Landing.dfy` says what the table means to a path, `RoutingTheorems.dfy` proves what the table promises as a whole,
`Paths.dfy` sets a URL's path, what the setter drops, escapes and resolves included, `Queries.dfy` decodes a query and says
what of a path carried in one comes back, `Dispatch.dfy`, `DispatchTheorems.dfy` and `ServingTheorems.dfy` land a request
and dispatch it, `ServingRuns.dfy` gives the requests that come out otherwise than the comments say, and
`VercelConfig.dfy` assembles the configuration and checks it for drift.

**The changelog** (`apps/web/src/changelog-releases.ts`) in `Changelog.dfy`: addresses printed and read back, and CDATA.

## Where the code is not what its comments say

The model follows the code. Each of these is proved, with the exact condition under which the promise holds and a run or
a state in which it fails.

- `events.ts:100` says no batch from now on carries a withheld secret. A batch already taken keeps the secrets it was taken
  with through all its retries (`events.ts:203-204`), so a secret withheld while it is retried is still posted.
  `Delivery.WithheldExactly`: every later post is scrubbed exactly where the sender holds no batch taken before;
  `Delivery.OlderHeldRun` comes from a sink's opening to one that does.
- `codex-rollout.ts:83` says a send that fails sends nothing. An append the store took, its answer lost, leaves the mirror
  where it was, and the next mirroring stores the same entries again. `Rollout.MirrorRefines`: the store equals the file's
  lines exactly where every append that got no answer had nothing to send.
- `codex-rollout.ts:58` says the store holds what the file already holds when a mirror is opened. It lacks what an earlier
  launch had not sent by then, and no later mirror sends it. `Rollout.ReopenedExactly`: the store covers the file from then
  on exactly where nothing readable stood past what the earlier mirror had sent.
- `codex-rollout.ts:83` says that after a read that fails the next tries again. It tries, and fails again: one whole line
  that cannot be read stops the mirror for good. `Rollout.StoppedExactly`: with whole lines unsent, nothing more is ever
  stored exactly where one of them cannot be read. `Rollout.ReopenedMidLine` comes to it from a mirror's opening on a line
  still being written.
- Unanswered messages are sent again as `sent` then `waiting` (`codex.ts:1055`). `LaunchTheorems.ResentInOrder`: that is the
  order they arrived in exactly where no message still owed had its steer accepted in a turn that had refused another's,
  still owed too. `LaunchRuns.OvertakingRun` is a run of four rounds in which one had.
- IDLE may be said twice over one rest (`codex.ts:1071-1077`): a completion drained inside another posts its own, and the
  outer one posts again. `LaunchIdles.IdleOnceExactly`: it is said once exactly where the completion's drain read no
  message line. `LaunchRuns.IdleTwiceRun` is a run that says it twice.
- `codex.ts:1093` says that a launch whose input closed with a turn running ends with the turn. A warm launch drops the
  signal and lives on to its window. `LaunchRuns.EndsWithTurnExactly`: the comment holds exactly off warm.
- `function-dispatch.ts:28-34` says that the dispatcher restores the path the route was written against. One carried in a
  query comes back as it was exactly where it holds no `&`, no `+` and no escape but one the path's setter writes:
  `DispatchTheorems.FallbackServes`, `SegmentServes`.
- A key's own rule restores the key's path unless the caller's query says `route-path`, which the dispatcher then takes for
  the rewrite's (`function-dispatch.ts:48-53`). `DispatchTheorems.KeyServes`: the path is restored exactly where the query
  carries none or one that, set behind `/api/` and its dot segments resolved, is the same path; `DispatchTheorems.DotsServe`
  has one of each.
- A segment rewrite reads a segment into its route's query (`function-rewrites.ts:41-50`); an `&` in the segment cuts it, and
  plants pairs of the dispatcher's own. `ServingTheorems.ParametersServe`: the route reads exactly its parameters exactly
  where no segment holds an `&`. `ServingRuns.PhotoMoved`: the path `/api/workspaces/x&route-path=y/photo` is handed on at
  `/api/y`.
- A path carried is written behind `/api/` (`function-dispatch.ts:53`, `:58`), and the setter resolves `..`: it need not stay
  there. `DispatchTheorems.HandedUnderApi`: it does exactly where the value's segments, walked by a count of those that
  stand, leave the first in place. `ServingRuns.PathLeaves`: a client's own `/api/a%2F..%2F..%2Fx` reaches the hosted route
  at `/x`.

## Assumptions

- The service gives no two of its lines one id, and ids the runner mints are fresh: `NoRepeat(ScriptIds(script))`. The
  launch theorems need nothing else.
- JSON is a printing without newlines that parsing undoes (`Rollout.Sound`), and a decoded line, answer or notification is
  a datatype.
- A client's path is as a URL has it (`Paths.UrlPath`): nothing in it that a path's setter would drop, escape, change or
  resolve, which `Paths.SetIsUrlPath` shows of every path a setter leaves. So is a function's path (`OwnFiles`).
- A query's value stands as its UTF-8 bytes, one character a byte: escapes that spell no UTF-8 are not part of this model.
- A release's version is `d.d.d`, each a run of digits, and no two are the same.

## Model

| member | source | states |
|---|---|---|
| `LaunchTheorems.LinesConserved` | packages/agent-runner/src/codex.ts:909-1103 | At every rest point of every run a line read is reported taken, carried by a message sent, or waiting, once over all three, and a sent one is carried by exactly one message |
| `LaunchReads.LinesReadInOrder` | packages/agent-runner/src/codex.ts:946-963 | At every point of every run, however it ends, the lines read, those queued and those to come are the script's message lines, each once, in order, with its id and its blocks as it came |
| `LaunchReads.SentAsRead` | packages/agent-runner/src/codex.ts:909-967 | Whatever a turn is asked to take, started, steered or sent again, says, read back, the blocks of the lines it carries as they were read, in order |
| `LaunchHistory.InputReadsBack` | packages/agent-runner/src/codex.ts:628-635 | What Codex is sent of a message reads back as its blocks: text as text, an image from its data URL, each in its place |
| `LaunchReads.ExitFails` | packages/agent-runner/src/codex.ts:1081-1109 | No exit of app-server's and no undelivered post is passed over: while a launch runs, or where it ended otherwise than failed, each that came is still to be acted on |
| `LaunchReads.StopsTaken` | packages/agent-runner/src/codex.ts:988-1006 | Every stop that names no launch or this one is taken with a turn running or ends the launch STOPPED, and no other is |
| `LaunchOutcomes.MessageStarts` | packages/agent-runner/src/codex.ts:909-967 | A message read with no turn running starts one of its line alone, and fails the launch where app-server names no turn |
| `LaunchOutcomes.MessageSteers` | packages/agent-runner/src/codex.ts:610-624 | A message read while a turn runs stands last of those sent where its steer is taken, last of those waiting where the turn is not steerable or the request invalid with no data, and fails the launch on any other refusal or none in time |
| `LaunchOutcomes.StopActs` | packages/agent-runner/src/codex.ts:988-1006 | A stop for another launch changes nothing; one for this ends it with no turn running, and with one waits on the turn where app-server answers the interrupt |
| `LaunchOutcomes.OthersAct` | packages/agent-runner/src/codex.ts:1007-1109 | A launch retired ends IDLED exactly where it is warm and idle, a closed input ends it exactly where no turn runs and nothing waits, an exit or an undelivered post fails it, and other lines change nothing |
| `LaunchOutcomes.TakenActs` | packages/agent-runner/src/codex.ts:1097-1099 | A message reported taken leaves those sent, the rest in their order, and one not among them changes nothing |
| `LaunchOutcomes.PutAgain` | packages/agent-runner/src/codex.ts:941 | The messages sent are a map's: one set again under its key takes the place of the one there |
| `LaunchOutcomes.CompletedActs` | packages/agent-runner/src/codex.ts:1042-1054 | A completion of another turn changes nothing; of the running one it is the end after a stop or a failure, and otherwise the turn is over |
| `LaunchOutcomes.WindowEnds` | packages/agent-runner/src/codex.ts:1261-1273 | A launch with nothing queued ends IDLED exactly where it is warm and its window passes with nothing come |
| `LaunchTheorems.AcceptedExactly` | packages/agent-runner/src/codex.ts:891-906 | ACCEPTED is said at most once of a line over a whole launch, and at rest it was said exactly of the lines taken or sent, of none that waits |
| `LaunchTheorems.EndsClean` | packages/agent-runner/src/codex.ts:1042-1096 | TURN_ENDED, IDLED and INPUT_CLOSED end a launch with no turn, nothing sent or waiting and every line read reported taken; TURN_ENDED with the queue just found empty and never in a warm launch |
| `LaunchTheorems.IdleMeansAnswered` | packages/agent-runner/src/codex.ts:1065-1077 | Every IDLE ever said, however deep the completions nested, was said with the queue just found empty, no turn running and every line read taken |
| `LaunchIdles.IdleOnceExactly` | packages/agent-runner/src/codex.ts:1042-1078 | A completion that leaves a warm launch at rest says IDLE at least once, and once exactly where its drain read no message line, which is exactly where it began no turn |
| `LaunchIdles.DrainIdles` | packages/agent-runner/src/codex.ts:1065-1077 | A drain from no turn says IDLE once more where it read no message line and twice over its rest where it did, however deep it nests |
| `LaunchTheorems.NestedCompletionIdlesAgain` | packages/agent-runner/src/codex.ts:1065-1077 | A drain that comes to the completion of a turn, with nothing else to come, says IDLE twice |
| `LaunchRuns.IdleTwiceRun` | packages/agent-runner/src/codex.ts:1062-1077 | From a warm launch's start, a run of four rounds that says IDLE twice over one rest |
| `LaunchIdles.InputClosedLetsFinish` | packages/agent-runner/src/codex.ts:1092-1096 | An input closed with a turn running changes nothing; a completion then leaves no turn only in a warm launch, and ends TURN_ENDED only off warm |
| `LaunchRuns.EndsWithTurnExactly` | packages/agent-runner/src/codex.ts:1092-1096 | No launch rests without a turn after its input closed with one running, exactly where it is not configured warm |
| `LaunchTheorems.PhaseHolds` | packages/agent-runner/src/codex.ts:958-1014 | No turn means nothing sent or waiting; warm is exactly being configured warm with no turn running; a stop taken waits on a running turn; the history is well told, so `turn/start` is asked only with no turn running |
| `LaunchTheorems.StopIsFinal` | packages/agent-runner/src/codex.ts:988-1049 | After a stop taken with a turn running the launch goes on only for that turn, whose completion ends it STOPPED whatever its status, and it ends STOPPED or failed |
| `LaunchTheorems.UnansweredSentAgain` | packages/agent-runner/src/codex.ts:1055-1061 | A completion with messages unanswered asks for one turn whose lines and input are those sent, in their order, then those waiting, in theirs |
| `LaunchTheorems.ResentInOrder` | packages/agent-runner/src/codex.ts:1055-1059 | At every rest point what would be sent again is in arrival order exactly where, of the lines still owed, none had its steer accepted in a turn that had refused another's |
| `LaunchTheorems.OvertakingReorders` | packages/agent-runner/src/codex.ts:968-986 | Wherever a turn runs, a steer refused and the next accepted leave the later line ahead of the earlier |
| `LaunchRuns.OvertakingRun` | packages/agent-runner/src/codex.ts:968-986 | From a launch's start, a run of four rounds that owes its third line ahead of its second |
| `LaunchTheorems.HeldSteer` | packages/agent-runner/src/codex.ts:980-983 | A steer the turn cannot take puts its message last among those waiting and changes nothing else but what arrived meanwhile |
| `LaunchTheorems.TakenSteer` | packages/agent-runner/src/codex.ts:984-986 | A steer the turn takes puts its message last among those sent |
| `LaunchTheorems.RunIsAfter` | packages/agent-runner/src/codex.ts:1261-1273 | The whole loop comes to what some number of its rounds come to, so what holds after every number of rounds holds of the run |
| `LaunchHistory.AcceptedOnce` | packages/agent-runner/src/codex.ts:901-905 | A well-told history says ACCEPTED of a line once exactly where the line is among the accepted, and never twice |
| `LaunchHistory.TakenOnce` | packages/agent-runner/src/codex.ts:1097-1099 | A line reported taken was said accepted, and a line said accepted was read |
| `LaunchHistory.NoTurnAfterStop` | packages/agent-runner/src/codex.ts:988-1006 | Once a stop is in a well-told history, no turn is asked for or begun after it |
| `LaunchProofs.MergedCarriesAll` | packages/agent-runner/src/codex.ts:913-920 | A merged message carries its messages' lines and input end to end, a lone message going as it is |
| `LaunchProofs.StartTurnKeeps` | packages/agent-runner/src/codex.ts:909-943 | Starting a turn of all that is owed, answered or refused, keeps the launch's invariant |
| `LaunchProofs.MessageKeeps` | packages/agent-runner/src/codex.ts:958-987 | A message line, with a turn running or without, steered, held or refused, keeps the invariant with its own line owed |
| `LaunchProofs.SteerKeeps` | packages/agent-runner/src/codex.ts:968-986 | A steer accepted moves its message to those sent and accepted, one refused to those waiting, any other refusal ends the launch |
| `LaunchProofs.TakenKeeps` | packages/agent-runner/src/codex.ts:1097-1099 | A report of a message taken moves exactly its lines from the owed to the taken |
| `LaunchProofs.TakeTurnCompletedKeeps` | packages/agent-runner/src/codex.ts:1042-1078 | A completion keeps the invariant through its merge or its drain, however deep the drain's own completions nest |
| `LaunchProofs.DrainKeeps` | packages/agent-runner/src/codex.ts:1065-1077 | So does the drain, which settles only with the queue just found empty |
| `LaunchProofs.TakeSignalKeeps` | packages/agent-runner/src/codex.ts:1081-1109 | So does every signal, and one that ends the launch clean leaves nothing owed |
| `LaunchProofs.EveryRun` | packages/agent-runner/src/codex.ts:1236-1273 | From the initial state, after any number of rounds over any script, the invariant stands or the launch ended as it may |
| `LaunchController.CodexLaunch.constructor` | packages/agent-runner/src/codex.ts:1236-1252 | A launch starts with no turn, nothing sent or waiting, and warm as it is configured |
| `LaunchController.CodexLaunch.Accepted` | packages/agent-runner/src/codex.ts:897-906 | Says ACCEPTED of each line not said before, and marks it |
| `LaunchController.CodexLaunch.StartTurn` | packages/agent-runner/src/codex.ts:909-943 | Takes exactly the step that starts a turn |
| `LaunchController.CodexLaunch.TakeMessage` | packages/agent-runner/src/codex.ts:958-987 | Takes exactly a message line's step |
| `LaunchController.CodexLaunch.Steer` | packages/agent-runner/src/codex.ts:968-986 | Takes exactly a steer's step |
| `LaunchController.CodexLaunch.TakeLine` | packages/agent-runner/src/codex.ts:946-1031 | Takes exactly a line's step, its branches and its ends |
| `LaunchController.CodexLaunch.TakeTurnCompleted` | packages/agent-runner/src/codex.ts:1042-1078 | Takes exactly a completion's step |
| `LaunchController.CodexLaunch.Polled` | packages/agent-runner/src/codex.ts:1066-1067 | A look at the queue takes its first signal off it, after what arrived meanwhile |
| `LaunchController.CodexLaunch.Drained` | packages/agent-runner/src/codex.ts:1062-1077 | The loop over the queue takes exactly the drain's steps |
| `LaunchController.CodexLaunch.CallOver` | packages/agent-runner/src/codex.ts:1071-1077 | With the queue empty the launch goes on with a turn, ends, or says IDLE and is warm |
| `LaunchController.CodexLaunch.TakeSignal` | packages/agent-runner/src/codex.ts:1081-1109 | Takes exactly a signal's step |
| `LaunchController.CodexLaunch.Run` | packages/agent-runner/src/codex.ts:1261-1277 | The controller's loop runs exactly as its steps do |
| `Rewind.RevertedBefore` | packages/agent-runner/src/codex.ts:862-889 | The paged search asks page after page until one settles it, and comes to what the answers say |
| `Rewind.PagesSearched` | packages/agent-runner/src/codex.ts:868-888 | However a thread is cut into pages, the search comes to what one look over the whole thread would |
| `Rewind.NewestReverted` | packages/agent-runner/src/codex.ts:854-861 | The turn reverted is the newest that took the message; nothing is reverted exactly where none did |
| `Rewind.SearchEnds` | packages/agent-runner/src/codex.ts:868-888 | Past pages none of whose turns took the message, a refusal fails the search, an answer that is no page leaves the thread whole, and with no answer it waits |
| `Delivery.ExactlyOnce` | packages/agent-runner/src/events.ts:175-229 | At every step the events applied are a prefix of those emitted, numbered without a gap from the first; once the drain is done they are all of them |
| `Delivery.OfferedDelivered` | packages/agent-runner/src/events.ts:193-242 | What a drained sink delivers is every message offered before the drain; what the service applied is always the first of them |
| `Delivery.OfferedEmitted` | packages/agent-runner/src/events.ts:219-229 | What is emitted is what was offered before the drain, in order |
| `Delivery.Always` | packages/agent-runner/src/events.ts:201-224 | The invariant of sink, network and service holds after any acts |
| `Delivery.DeliverApplies` | packages/agent-runner/src/protocol.ts:754-757 | A post arriving late, again, or applied in part moves the service on along what was emitted or not at all, and one answered as taken was applied whole |
| `Delivery.HeardApplied` | packages/agent-runner/src/events.ts:164-170 | When the sender hears that its batch was taken, the service has applied all of it and nothing past it |
| `Delivery.RefusalStops` | packages/agent-runner/src/events.ts:175-186 | After a permanent refusal only heartbeats are posted, which carry nothing, and the service applies nothing past the refused batch |
| `Delivery.WithheldFromNextBatch` | packages/agent-runner/src/events.ts:203-204 | With no older batch held, every post from now on is scrubbed of a withheld secret |
| `Delivery.RetryKeepsItsSecrets` | packages/agent-runner/src/events.ts:180-186 | With an older batch held, a run exists that posts it again without the secret withheld |
| `Delivery.WithheldExactly` | packages/agent-runner/src/events.ts:100-101 | Every later post is scrubbed of a withheld secret exactly where no older batch is held |
| `Delivery.OlderHeldRun` | packages/agent-runner/src/events.ts:203-204 | From a sink's opening, a run that comes to hold an older batch |
| `EndToEnd.PostsCarryNoSecret` | packages/agent-runner/src/events.ts:140-145 | With no older batch held, no post from now on carries a removable withheld secret in any string or key, whatever was emitted |
| `EndToEnd.PostCarriesEach` | packages/agent-runner/src/events.ts:140-145 | A post carries every event of its batch, as many and each in its place, redacted on its own |
| `EndToEnd.CleanPostWhole` | packages/agent-runner/src/events.ts:140-145 | A batch no secret occurs in is posted as it is, every event whole |
| `EndToEnd.EventsKeyKept` | packages/agent-runner/src/events.ts:119-125 | Keys are scrubbed too, a post's own among them: it stands exactly where no secret held is part of the word |
| `Events.EventSink.Emit` | packages/agent-runner/src/events.ts:219-224 | Numbers a message and queues it; one offered to an ended sink takes a number and is not queued |
| `Events.EventSink.Withhold` | packages/agent-runner/src/events.ts:236-242 | Adds a secret for the batches taken from now on |
| `Events.EventSink.SendAll` | packages/agent-runner/src/events.ts:175-206 | The sender's loop and its retries come to what its posts' answers make of the queue |
| `Events.StatusDecides` | packages/agent-runner/src/events.ts:154-186 | A batch answered 2xx is let go; after no answer, 408, 429 or 5xx the very same batch is posted next; any other answer stops the sender with it for good |
| `Events.BatchFirst` | packages/agent-runner/src/events.ts:201-204 | A batch is the queue's first events, all of them or 256, with the secrets held then |
| `Events.SendingKeepsAll` | packages/agent-runner/src/events.ts:175-206 | Whatever the answers, the events of the posts taken, then the batch in hand, then the queue, are all that was held, once and in order |
| `Events.EventSink.Drain` | packages/agent-runner/src/events.ts:226-229 | The queue is ended: nothing more is taken in, what is queued is still sent |
| `Redaction.RedactionComplete` | packages/agent-runner/src/events.ts:110-113 | No text keeps a secret that cannot stand over the word put in, whatever the other secrets, their order and overlaps |
| `Redaction.CompleteExactly` | packages/agent-runner/src/events.ts:110-113 | For secrets without brackets the redaction is complete on every text exactly where none is part of `redacted` |
| `Redaction.TreeComplete` | packages/agent-runner/src/events.ts:115-126 | No string and no key of a JSON tree, however deep, keeps such a secret |
| `Redaction.TextKeptExactly` | packages/agent-runner/src/events.ts:110-113 | A text that does not hold the word already crosses unchanged exactly where no secret occurs in it |
| `Redaction.OneTakenOut` | packages/agent-runner/src/events.ts:112 | Taking one secret out keeps all between its occurrences, leftmost first, and puts the word in for each |
| `Redaction.TakenOutInOrder` | packages/agent-runner/src/events.ts:111-113 | Secrets are taken out one after another in the order held |
| `Redaction.ItemsEach` | packages/agent-runner/src/events.ts:118 | An array crosses with as many items, each at its place and redacted on its own |
| `Redaction.LastValueStands` | packages/agent-runner/src/events.ts:120-125 | Where keys come to the same once redacted, the object holds the value that came last under them |
| `Redaction.CleanTreeKept` | packages/agent-runner/src/events.ts:115-126 | A value no secret occurs in, each object's keys distinct, crosses unchanged, whatever it is made of |
| `Text.NothingBrought` | packages/agent-runner/src/events.ts:112 | Replacing every occurrence leaves none of the target and brings none of a text that cannot touch what is put in |
| `Text.ReplacedBetween` | packages/agent-runner/src/events.ts:112 | A replacement changes nothing but what it replaces: the pieces between the occurrences stand as they were, in order |
| `EndToEnd.HeardInFull` | packages/agent-runner/src/codex.ts:891-906 | Over any network, the service applies ACCEPTED of no line twice, and by the time it applies an IDLE it has applied ACCEPTED of every line read by then, each of which a turn took |
| `Lines.HandOn` | packages/agent-runner/src/lines.ts:133-137 | One answer's lines handed on past the cursor, each moving it, until the queue refuses one |
| `Lines.ReadLines` | packages/agent-runner/src/lines.ts:117-139 | The loop hands on what its answers come to, retries a transient failure and stops on any other |
| `Lines.HandedExactly` | packages/agent-runner/src/lines.ts:117-139 | Over any answers, the lines handed on are the first there is room for of those past every line before them, and the reads stop if and only if one is refused for good or such a line comes with no room left |
| `Lines.LogHandedWhole` | packages/agent-runner/src/lines.ts:112-139 | With the log answered in order, none refused for good and room for it all, the reads go on and exactly the lines answered were handed on, the log from place 1 |
| `Lines.LogHandedOn` | packages/agent-runner/src/lines.ts:112-139 | Over any failures and repeated answers the lines handed on are the log's first, from place 1, each once, and none answered is missing while the reads go on |
| `Lines.TakesStretch` | packages/agent-runner/src/lines.ts:133-137 | A stretch answered that starts no further than just past the cursor moves a prefix of the log to a longer one |
| `Lines.CursorGrows` | packages/agent-runner/src/lines.ts:134-136 | For any answers at all the cursor never goes back and nothing at or before it is handed on again |
| `AppServer.SettledOnce` | packages/agent-runner/src/app-server.ts:185-305 | Every id given is pending or settled, once, and no other is; once stdout ended none is pending and every request made is settled |
| `AppServer.SettledByCause` | packages/agent-runner/src/app-server.ts:227-298 | A request is settled only by the answer with its own id, its own bound, or stdout's end |
| `AppServer.AnswerSettles` | packages/agent-runner/src/app-server.ts:227-240 | An answer with a pending request's id, as a number or spelled, settles that request alone: failed where it carries an error, and otherwise with its result |
| `AppServer.OtherLinesSettleNone` | packages/agent-runner/src/app-server.ts:194-229 | A line that names a method, is no JSON-RPC, or answers no pending request settles none |
| `AppServer.AskedServedOrRefused` | packages/agent-runner/src/app-server.ts:203-216 | A request of app-server's is served where the runner serves its method, and refused at once where it does not |
| `AppServer.FiberAnswers` | packages/agent-runner/src/app-server.ts:213-221 | A request served to its end is answered with what came of it, and settles nothing of ours |
| `AppServer.BoundSettles` | packages/agent-runner/src/app-server.ts:288-299 | A bound passed settles its pending request alone, as timed out |
| `AppServer.EachWritten` | packages/agent-runner/src/app-server.ts:278-287 | Requests are numbered from 1 as they are made; exactly those made before stdout's end are written, and each made after fails at once |
| `AppServer.LateAnswerDropped` | packages/agent-runner/src/app-server.ts:227-229 | An answer for a request settled already changes nothing |
| `AppServer.IdsIncrease` | packages/agent-runner/src/app-server.ts:280-285 | The requests written carry ids that strictly increase |
| `AppServer.Always` | packages/agent-runner/src/app-server.ts:185-258 | The pending table's invariant holds after any interleaving |
| `AppServer.AppServerClient.Ask` | packages/agent-runner/src/app-server.ts:278-287 | Gives the next id, and registers and writes the request, or refuses it where stdout ended |
| `AppServer.EachAnsweredOnce` | packages/agent-runner/src/app-server.ts:203-222 | Each request of app-server's is being served or was answered, once |
| `AppServer.AppServerClient.TakeLine` | packages/agent-runner/src/app-server.ts:194-241 | Settles the pending request a response names, serves or refuses a request app-server makes, and changes nothing on any other line |
| `AppServer.AppServerClient.Serve` | packages/agent-runner/src/app-server.ts:213-221 | A request served is answered with what came of it |
| `AppServer.AppServerClient.PassBound` | packages/agent-runner/src/app-server.ts:288-299 | A bound passed settles the request as timed out and forgets it |
| `AppServer.AppServerClient.EndStdout` | packages/agent-runner/src/app-server.ts:245-254 | Closes the client, and settles and clears every pending request |
| `Rollout.MirrorRefines` | packages/agent-runner/src/codex-rollout.ts:84-111 | Over any interleaving of writes and mirrorings, what was sent ends at a line boundary and the store is its start followed by the entries of exactly those lines, if and only if every append without an answer had nothing to send |
| `Rollout.MirrorCatchesUp` | packages/agent-runner/src/codex-rollout.ts:87-110 | One mirroring the store takes brings it level with the file's whole lines read in one go |
| `Rollout.LostAnswerRepeats` | packages/agent-runner/src/codex-rollout.ts:109-110 | An append taken with its answer lost stores the same entries twice |
| `Rollout.MirrorReadsText` | packages/agent-runner/src/codex-rollout.ts:95-101 | Of a file that is a text's bytes so far, what a mirroring reads is some text's bytes, and its entries are that text's, decoded whole and then cut into lines |
| `Rollout.ReopenedExactly` | packages/agent-runner/src/codex-rollout.ts:58-81 | A mirror opened on the file an earlier one left covers it, then and later, exactly where nothing readable stood past what the earlier one had sent |
| `Rollout.StoppedExactly` | packages/agent-runner/src/codex-rollout.ts:83-107 | With whole lines unsent, nothing more is stored or counted as sent, whatever is written and mirrored after, if and only if one of those lines cannot be read |
| `Rollout.ReopenedMidLine` | packages/agent-runner/src/codex-rollout.ts:65-73 | One opened on a line still being written reads the rest of it for a line: once that is whole the mirror has stopped for good exactly where the rest cannot be read, and otherwise stores what the rest reads as |
| `Rollout.RestoreReadsBack` | packages/agent-runner/src/codex-rollout.ts:48-54 | A file written from entries reads back as the same entries, all of it whole lines |
| `Rollout.RestoreThenMirror` | packages/agent-runner/src/codex-rollout.ts:44-81 | A mirror opened on a file written back keeps file and store equal as entries, if and only if every append without an answer had nothing to send |
| `Rollout.RolloutMirror.constructor` | packages/agent-runner/src/codex-rollout.ts:59-81 | A mirror opens at the file's size |
| `Rollout.RolloutMirror.ReadPast` | packages/agent-runner/src/codex-rollout.ts:87-106 | Reads the whole lines past what was sent as entries, and how many bytes they take up |
| `Rollout.RolloutMirror.Mirror` | packages/agent-runner/src/codex-rollout.ts:84-111 | One mirroring takes exactly its step, `sent` moved only past what the store answered it took |
| `Rollout.RestoreRollouts` | packages/agent-runner/src/codex-rollout.ts:38-56 | Each file the store holds is written where it is missing, a file there is left as it is, and no other is made |
| `Cutting.LinesEncoded` | packages/agent-runner/src/codex-rollout.ts:95-100 | Cutting a file's bytes at newlines gives the lines of its text, character for character |
| `Cutting.NewlineAlone` | packages/agent-runner/src/codex-rollout.ts:95 | A newline byte is a line feed and never lies inside another character |
| `Cutting.EncodedOnce` | packages/agent-runner/src/codex-rollout.ts:98 | A text is read back from its bytes in one way only |
| `Cutting.EncodedExamples` | packages/agent-runner/src/codex-rollout.ts:98 | The examples of section 7 of RFC 3629, a character of each length |
| `Cutting.BoundaryText` | packages/agent-runner/src/codex-rollout.ts:95-98 | A place just past a newline byte parts a text's bytes into two texts' |
| `Cutting.LinesConcat` | packages/agent-runner/src/codex-rollout.ts:95-100 | Text that ends at a newline has no line running on into what follows |
| `Functions.Partitioned` | apps/web/server/function-durations.ts:147-169 | With keys and claims said once, every key, every claim and the hosted route is in exactly one function, and nothing else is |
| `Functions.RoutesCounted` | apps/web/server/function-durations.ts:151-167 | How often a route is listed, for any keys and claims at all |
| `Functions.SortingKeeps` | apps/web/server/function-durations.ts:168 | Sorting by file, whatever the collation, keeps every function and every route |
| `Functions.HolderFound` | apps/web/server/function-rewrites.ts:227-231 | With each route listed once, looking a route up finds the function that lists it |
| `Functions.HolderLast` | apps/web/server/function-rewrites.ts:227-231 | Where several functions list a route, the lookup finds the last that does |
| `Functions.SortedInOrder` | apps/web/server/function-durations.ts:168 | The functions stand in the order of their files, whatever order of names it is |
| `Patterns.MatchesExactly` | apps/web/server/platform-landing.ts:18-20 | Greedy matching with giving back finds groups exactly where some groups fit, and those it finds fit |
| `Patterns.Greedy` | apps/web/server/platform-landing.ts:18-30 | Of all the ways to fill a pattern in, a match's has the longest first group, then the longest second, and so on |
| `Patterns.SyntaxEscaped` | apps/web/server/function-rewrites.ts:184-186 | A character is escaped exactly where a regular expression reads it as something else than itself |
| `Patterns.ExactMatches` | apps/web/server/function-rewrites.ts:183-186 | The pattern written for a path, its specials escaped, matches that path alone |
| `Patterns.ReadExactly` | apps/web/server/function-rewrites.ts:184-186 | An escaped path reads back as its own characters before any pattern that follows |
| `Patterns.AfterText` | apps/web/server/platform-landing.ts:18-20 | A pattern's leading text is text its paths start with, no group holding any of it |
| `Patterns.TemplateGivesBack` | apps/web/server/function-rewrites.ts:60-104 | A pattern's own template, its groups written in, gives back the path they were taken from |
| `Patterns.WrittenPlain` | apps/web/server/platform-landing.ts:28-30 | Text with no `$` is written as it stands before what follows |
| `Patterns.DollarForms` | apps/web/server/platform-landing.ts:28-30 | The other forms of a replacement: `$$`, the whole match, and the empty text before and after it |
| `Patterns.TwoDigits` | apps/web/server/platform-landing.ts:28-30 | Two digits name a group where there are as many, and otherwise the first alone does |
| `Rewrites.ApiRewrites` | apps/web/server/function-rewrites.ts:222-265 | The table is its parts in their order, or the first refusal met |
| `Rewrites.GeneratedRewrites` | apps/web/server/function-rewrites.ts:267-270 | The whole table: the rules that land on no function, then the functions' own |
| `Rewrites.PublicsPushed` | apps/web/server/function-rewrites.ts:235-239 | A rule for each public path, or the first with no route behind it |
| `Rewrites.SegmentsPushed` | apps/web/server/function-rewrites.ts:240-246 | A rule for each segment rewrite, or the first with no route behind it, and the routes they and the fallback name |
| `Rewrites.RoutesPushed` | apps/web/server/function-rewrites.ts:249-255 | A rule for each route not named already, or the first that is no literal key |
| `Rewrites.LiteralsPushed` | apps/web/server/function-rewrites.ts:247-256 | The same over every dispatcher, in order |
| `Rewrites.OwnPushed` | apps/web/server/function-rewrites.ts:257-259 | A rule onto itself for each path of its own |
| `Landing.TableLands` | apps/web/server/function-rewrites.ts:213-270 | First match over the whole generated table is decided without it: a rule that lands elsewhere, a public path, then the first segment pattern, then a dispatcher's literal key, then a function's own path, then the fallback for the rest of `/api/`, and nothing else |
| `Landing.SortedKeeps` | apps/web/server/function-rewrites.ts:210 | Sorting the pass-through paths keeps each as often as it stood |
| `Landing.SortedInOrder` | apps/web/server/function-rewrites.ts:210 | The pass-through paths stand in order, by code unit |
| `Landing.UpToExactly` | apps/web/server/function-rewrites.ts:210 | Of two paths one stands before the other where it starts it, or is the lesser at the first place they differ |
| `Landing.FallbackTakes` | apps/web/server/function-rewrites.ts:180-181 | The fallback takes exactly the paths under `/api/`, and captures what follows |
| `Landing.KeyMatches` | apps/web/server/function-rewrites.ts:106-107 | A literal key is its own pattern, and matches its own path alone |
| `RoutingTheorems.RouteNamed` | apps/web/server/function-rewrites.ts:247-256 | Every route of a dispatcher has a rule that lands on it |
| `RoutingTheorems.OutrightNamed` | apps/web/server/function-rewrites.ts:235-246 | Whatever a public path, a segment rewrite or the fallback names is held by a function, and a rule lands there |
| `RoutingTheorems.DispatchedNamed` | apps/web/server/function-rewrites.ts:20-26 | Over the layout's own functions every dispatched route is looked up in its one function and named there |
| `RoutingTheorems.EveryKeyNamed` | apps/web/server/function-durations.ts:139-146 | Every route file no function claims is grouped in a dispatcher and named by the table, so none answers 404 for want of a rule |
| `RoutingTheorems.GroupNamed` | apps/web/server/function-durations.ts:159 | Each group is one function that dispatches, and the table names each of its routes there alone |
| `RoutingTheorems.HostedLaid` | apps/web/server/function-durations.ts:157-166 | The hosted route is in the default function, which dispatches to it, and consumers stand as declared |
| `RoutingTheorems.AloneNamed` | apps/web/server/function-durations.ts:160-165 | Each route that stands alone has both paths of its own function in the table |
| `RoutingTheorems.CompiledExactly` | apps/web/server/function-rewrites.ts:222-256 | The table is compiled if and only if the hosted route, every public path's and every segment rewrite's is held, and every other dispatched route is spelled of `[a-z0-9/-]` |
| `RoutingTheorems.AliasCuts` | apps/web/server/function-rewrites.ts:210 | A name's second path is the name without its extension |
| `RoutingTheorems.AliasKeeps` | apps/web/server/function-rewrites.ts:210 | And the name itself where it has none |
| `RoutingTheorems.StandaloneNamed` | apps/web/server/function-rewrites.ts:193-211 | Each standalone function but a queue's has both its paths in the table, each onto itself |
| `RoutingTheorems.OwnRulesAre` | apps/web/server/function-rewrites.ts:203-211 | The rules onto themselves are exactly those of the functions' own names, both paths of each |
| `RoutingTheorems.FallbackLast` | apps/web/server/function-rewrites.ts:260-264 | A rule has the fallback's pattern if and only if it is the last, unless a segment rewrite spells it |
| `RoutingTheorems.CallersAgree` | apps/web/server/api-callers.ts:521-548 | The callers check's rewrite for a path is the rule first match lands it on over the whole table, or none where that is the fallback |
| `RoutingTheorems.QueueUnnamed` | apps/web/server/function-rewrites.ts:193-197 | A rule lands on a queue's consumer only where a public path, a segment rewrite or the hosted route names a route of its |
| `RoutingTheorems.RuleFrom` | apps/web/server/function-rewrites.ts:234-264 | Every rule lands on a route named outright, a dispatcher's own key, or a path of its own |
| `Dispatch.Land` | apps/web/server/platform-landing.ts:33-37 | The rule's destination, then the caller's pairs, appended one by one |
| `Dispatch.Fetch` | apps/web/server/function-dispatch.ts:45-60 | The dispatcher, editing its URL step by step, hands on what the request comes to, its path set and resolved |
| `Dispatch.Address.SetUnderApi` | apps/web/server/function-dispatch.ts:53-58 | The path is set to `/api/` and the value, escaped as a path's setter escapes it and its dot segments resolved |
| `Dispatch.Address.Get` | apps/web/server/function-dispatch.ts:47-48 | The first value of a name |
| `Dispatch.Address.Delete` | apps/web/server/function-dispatch.ts:49-50 | Every pair of a name goes, the rest stay in order |
| `DispatchTheorems.PickedExactly` | apps/web/server/function-dispatch.ts:46-60 | Whatever a dispatcher is asked: the key's own route, else the hosted one at the path carried or the request's own, else nothing |
| `DispatchTheorems.WithoutExactly` | apps/web/server/function-dispatch.ts:49-50 | What is left of a query is exactly the pairs of another name |
| `DispatchTheorems.MemberFixed` | apps/web/server/function-dispatch.ts:36-41 | The member a rule's function picks depends on the rule alone: no path and no query of the caller's changes it |
| `Paths.SetKeepsExactly` | apps/web/server/function-dispatch.ts:53-58 | Setting a path to a text leaves that very text if and only if it is one a URL's path may be: held as it is, no segment a dot's |
| `Paths.SetIsUrlPath` | apps/web/server/function-dispatch.ts:53-58 | Whatever a path is set to, what stands is a path a URL may have, so setting it again changes nothing |
| `Paths.DotSegmentsAre` | apps/web/server/function-dispatch.ts:53-58 | A dot is written plainly or as its escape in either case, and a double dot is any two of them |
| `Paths.SpeltExactly` | apps/web/server/function-dispatch.ts:53-58 | Byte by byte, what the setter drops, turns into a slash, escapes and leaves as it is |
| `Paths.ResolvedWithin` | apps/web/server/function-dispatch.ts:53-58 | Resolving leaves no character but `/` more often than it stood, and as much text only where no segment is a dot's |
| `Paths.UnderExactly` | apps/web/server/function-dispatch.ts:53-58 | A path set to a value behind a first segment stays under that segment if and only if a walk over the value's segments, by their count alone, leaves the first in place |
| `Queries.BackExactly` | apps/web/server/function-dispatch.ts:48-58 | A text without `&` carried in a query and written as a path comes back as it was exactly where it holds no `+` and every escape in it is the one the setter writes |
| `Queries.CutNeverBack` | apps/web/server/function-dispatch.ts:48 | Of one with an `&`, which cuts it, something is always gone of what comes back, whatever else is in it |
| `Queries.SetBackExactly` | apps/web/server/function-dispatch.ts:48-58 | Its dot segments resolved too, a carried text comes back behind a start exactly where besides the path holds no dot segment |
| `Queries.EscapeReadsBack` | apps/web/server/function-dispatch.ts:48-58 | The setter's escape of a byte decodes to that byte |
| `Queries.SpellingReadsBack` | apps/web/server/function-dispatch.ts:48-58 | What the setter writes of a value decodes to the value, but for what it drops or turns and what decoding reads otherwise |
| `Queries.PairExactly` | apps/web/server/function-dispatch.ts:47-48 | A piece of a query is a name and a value at its first `=`, each decoded, and a name alone has an empty value |
| `Queries.HexEither` | apps/web/server/function-dispatch.ts:47-48 | An escape's digits may be of either case, and are nothing else |
| `DispatchTheorems.CarryingUndone` | apps/web/server/function-dispatch.ts:28-34 | For any rule that carries its own pattern's path, landing and dispatching hand the route what is read back of the client's path up to its first `&`, which is that path if and only if it holds no `&`, no `+` and no escape but one the setter writes, and then the caller's own pairs in order |
| `DispatchTheorems.FallbackServes` | apps/web/server/function-rewrites.ts:217-220 | A path under `/api/` nothing else in the whole table takes reaches the hosted route, at that path under the same condition, and under `/api/` exactly where what is read back stays so |
| `DispatchTheorems.SegmentServes` | apps/web/server/function-rewrites.ts:60-104 | So does a path of a segment rewrite that carries its path, at its own route |
| `ServingTheorems.ParametersServe` | apps/web/server/function-rewrites.ts:41-50 | A segment rewrite that names parameters reaches its route whatever the segments hold; it is handed each group under its name, decoded, and the caller's pairs, if and only if no group holds an `&`, and then at the route's own path unless the caller carries another |
| `ServingTheorems.GroupReads` | apps/web/server/function-rewrites.ts:41-50 | A group without escapes reads back as it stood in the path exactly where it holds no `+` |
| `ServingTheorems.PlantedServes` | apps/web/server/function-dispatch.ts:47-53 | A path whose segment holds `&route-path=` is served over the whole table at the path planted, the parameter cut |
| `ServingRuns.PlantedRun` | apps/web/server/function-rewrites.ts:60-104 | For every rewrite that reads a segment between two texts into a parameter, and every group and planted text, the path that plants it |
| `ServingRuns.PhotoMoved` | apps/web/server/function-rewrites.ts:94 | `/api/workspaces/x&route-path=y/photo` reaches the photo's route at `/api/y`, with `id` read as `x` |
| `ServingTheorems.PublicServes` | apps/web/server/function-rewrites.ts:111-150 | A public path reaches the route it names with the caller's own pairs, at the route's own path, or at `/api/` and the `route-path` the caller carries, set and resolved |
| `ServingTheorems.PublicCarries` | apps/web/server/function-rewrites.ts:119-150 | One that carries a path reaches its route whatever the caller's query says, at that path exactly as written if and only if it holds no `&` and no `+`, every escape in it is one the setter writes and no segment a dot's |
| `DispatchTheorems.KeyServes` | apps/web/server/function-dispatch.ts:46-54 | A literal key's path reaches the key's own route with the caller's pairs in order, at that path if and only if the caller's query carries none, or one that is the same path once set and resolved |
| `DispatchTheorems.DotsServe` | apps/web/server/function-dispatch.ts:48-53 | With `./` and the key carried, a key's path stays as it was; with `../` and a value, it is that value's at the top |
| `DispatchTheorems.HandedUnderApi` | apps/web/server/function-dispatch.ts:45-60 | Whatever a dispatcher is asked, the path it hands on is under `/api/` if and only if the path carried, or the key, stays so segment by segment, or nothing was carried and the hosted route's request was |
| `ServingRuns.HiddenServes` | apps/web/server/function-dispatch.ts:56-59 | A client's own path, with no query, whose escaped slashes hide two double dots reaches the hosted route outside `/api/` |
| `ServingRuns.PathLeaves` | apps/web/server/function-dispatch.ts:56-59 | `/api/a%2F..%2F..%2Fx` reaches the hosted route at `/x` |
| `DispatchTheorems.OwnPathKept` | apps/web/server/function-rewrites.ts:198-202 | A function's own path lands on itself, the caller's query untouched |
| `DispatchTheorems.LandedOn` | apps/web/server/platform-landing.ts:33-37 | A rule lands a request on its function, its route's key first in the query, then what it adds, the caller's pairs last |
| `DispatchTheorems.LandsAtPath` | apps/web/server/platform-landing.ts:33-36 | Wherever a rule lands a request, the path it lands at is one a URL may have |
| `VercelConfig.OthersKept` | apps/web/server/function-rewrites.ts:475-482 | Assembling keeps every route that is not the table's, once and in order among its kind, and puts the table in place of the entries it replaces |
| `VercelConfig.LockedFirst` | apps/web/server/function-rewrites.ts:468-474 | No table entry and no open route stands ahead of a host's own, none open ahead of the table |
| `VercelConfig.AssembledAgain` | apps/web/server/function-rewrites.ts:475-484 | Assembling is idempotent if and only if every entry of the table is known for one |
| `VercelConfig.DriftedExactly` | apps/web/server/function-rewrites.ts:451-463 | The drift check passes any file at all, the table's entries known for its own, if and only if the table is what the routes generate and assembling again would change no kind's routes |
| `VercelConfig.EntryDrifts` | apps/web/server/function-rewrites.ts:457-463 | In a file that passes, an entry changed, missing or doubled is drift |
| `VercelConfig.SwapDrifts` | apps/web/server/function-rewrites.ts:457-463 | So are two entries that differ in each other's places |
| `VercelConfig.AssembledChecks` | apps/web/server/function-rewrites.ts:457-463 | The drift check passes a file just assembled if and only if the table is what the routes generate and every entry is known for one |
| `VercelConfig.GeneratedChecks` | apps/web/server/function-rewrites.ts:438-484 | A generated table's entries are all known for its own, so generating, assembling and checking finds no drift and assembling again changes nothing |
| `Changelog.RouteReadsBack` | apps/web/src/changelog-releases.ts:131-154 | Every generated route's address and its built file's, with or without slashes after it, read back as that route's view |
| `Changelog.OnlyRoutesShown` | apps/web/src/changelog-releases.ts:137-154 | No address shows a view that no generated route has |
| `Changelog.NumberShown` | apps/web/src/changelog-releases.ts:142-147 | A page's number in an address shows that page from the second on, and past the last nothing |
| `Changelog.UnlistedShowsNothing` | apps/web/src/changelog-releases.ts:148-153 | A version no release has shows nothing |
| `Changelog.RoutesApart` | apps/web/src/changelog-releases.ts:181-204 | No two routes share an address or a built file |
| `Changelog.PagesHold` | apps/web/src/changelog-releases.ts:95-118 | The pages hold every release once and in order, ten at most to a page, none empty but the one page of no releases |
| `Changelog.PageShown` | apps/web/src/changelog-releases.ts:110-118 | A page's address shows ten releases from where those before it left off, the last page what is left |
| `Changelog.ReleaseShown` | apps/web/src/changelog-releases.ts:120-129 | A release's address shows it between the release listed before it, its newer, and the one listed after it, its older |
| `Changelog.PrintedBack` | apps/web/src/changelog-releases.ts:101-103 | A page's number printed in an address reads back |
| `Changelog.CdataReadsBack` | apps/web/src/changelog-releases.ts:218-219 | Notes printed as CDATA and read as consecutive sections are the notes, whatever they hold |

## Left out

- The launch's arguments, configuration overrides, providers, catalogs, credentials and sign-in (`codex.ts:479-609`, `:1112-1173`): configuration with no state to prove anything of.
- What a turn's model, effort and service tier are, and the MODEL line that sets them (`codex.ts:671-675`, `:1018-1029`): the line is a signal that changes nothing else.
- Spawning app-server, its pipes, its stderr tail and the wait for it, opening a thread, file handles and HTTP: each is an answer, a refusal, a bound passed or an end in the models.
- Wall-clock waits, backoff and jitter: kept as retried later, timed out, and the warm window passed. `drainStopped` is a drain that is let go, so it promises only the prefix.
- What serving a request of app-server's does (`app-server.ts:213-221`): only that it is answered once, when its fiber is done.
- A request's bound and its answer at the same instant: the two are steps in one order or the other.
- Decoding of JSON and of schemas, and how numbers are spelled: a secret made of digits inside a number is not in the redaction's tree, as the code does not look for it there.
- The service's own side beyond its stated contract: `packages/agent-runner/src/runner.ts`'s wiring and the service's routes are not part of this model.
- General regular expressions and URLs: patterns are made of plain and escaped characters, `([^/]+)` and `(.*)`; a line terminator, which `.` would not match, cannot stand in a URL's path.
- Queries are lists of pairs once landed: that a list appended to a URL is spelled and read back as itself is not proved, only that a destination's own query is read as its pairs.
- Rules that carry more than nine groups, whose `$n` could run into a digit that follows: none does.
- The headers a rule takes off a request, and method, headers, body and signal, which landing and dispatching pass on untouched.
- Scanning callers' sources for paths, prefixes and aliases (`api-callers.ts`, all but which rewrite serves a path): text scanning over a compiler's tree.
- `maxDuration`, bundles and the build's own output: fields no rule reads.
- Release headings, summaries, share cards and the feed's other elements (`changelog-releases.ts:88-93`, `:156-216`, `:221-260`): formatting.
- Redaction.RedactionComplete: one direction for secrets that hold a bracket; which of those survive depends on the other secrets.
