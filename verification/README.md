# Turn following and its neighbours, modelled and proved

The channel of the Claude Code agent serves requests by handing them to a
running Claude Code process, and learns what became of them only from records
that hooks of that process append to files. Four pieces of it must agree on
which request belongs to which turn: the turn tracker, which follows turns by
their prompt ids; the turn ledger, which says who may be asked for permission
and which requests a turn left unanswered; the server, which drives the ledger
by the tracker's calls; and the Stop hook, which joins requests to turns on its
own, straight from the log. This project models all four as they are, branch by
branch, and proves that they agree over whole runs: what every record keeps,
whose text answers a request, that none is ended early or forgotten, that turns
are ordered intervals, and when the hook, in another process, finds exactly the
requests the ledger has bound to the turn. Where a promise fails, the exact
condition under which it holds is proved, beside an input on which it does
not. Around that core stand the poll that
feeds it, the wrappers of extensions around its steps, the frames a prompt is
answered with, the release graph and scan, the Codex session manager, its
scheduler and its JSON-RPC client.

| file | what it holds |
|---|---|
| Records, OrderedMaps, Sorting, Bytes | the hooks' records; a map that keeps insertion order; lists filtered in order; a stable sort |
| Turns, TurnHistory, TurnRules, TurnLaws | the tracker: its steps, its class, what runs keep, and what each record does |
| Ledger, LedgerHistory, FallbackGuesses | the ledger: its steps, its class, what runs keep, and whom the fallback takes for owners |
| Channel, Agreement, AgreementRuns, Outcomes, ForgottenTurns, ServerLedger, Endings, ServerLaws | the server, the agreement of tracker and ledger, how each request ends, and what it gives callers |
| WaitingRequests, Courses, HookAgreement, HookServer, StopHook | the hook's join, well-formed logs, and the hook against tracker and server |
| EventLog, EventWatching, EventHearing, HookPolling | reading an append-only log, polls, what is heard, and the whole way from the file to the hook's answer |
| ToolCalls | the request a tool call runs in, and the one asked for permission |
| Extensions, PromptDispatch, PromptAnswers | guarded wrappers; the frames of one prompt |
| ReleaseGraph, ReleasePlan, StreamScan | closures, build order, scan by pieces |
| SessionManager, SessionBreakOffs, PollScheduler, JsonRpc | the Codex agent's state machines |

How it is put together. What the source updates in place is a class with the
same fields, and its loops are loops; each method is tied by its `ensures` to a
function on values with the same name, and the theorems are about those
functions, by induction over runs. Beside them every operation has laws that
do not speak of its function, but of what it does to what was there before
(TurnLaws, Endings, ServerLaws, FallbackGuesses, PromptAnswers, EventHearing,
SessionBreakOffs). A hook call of the tracker's is returned as
a value and made by the server right after the operation: no hook reads or
changes the tracker, so nothing tells the two orders apart. The answers of
callbacks (`isOpen`, `currentSession`), files as read, clocks, parsers and
failures are parameters, quantified over. Prompt ids and request ids are wrapped
strings; times are natural numbers of milliseconds.

What a well-formed log is (`Courses.CourseOf`): every turn's own Stop or
failure comes before the next turn's first record and later than its own first,
each request is submitted once and with a prompt id, no prompt id comes again
after another took its place or its turn ended, and messages are taken together
with nothing between them, tool calls included, and within the batch bound.

Where the code and its comments differ, the code is modelled:

- agents/claude-code/src/turns.ts has records without prompt ids ignored; a
  typed submit, a Stop or a failure without one closes the open batch.
- agents/claude-code/src/turns.ts has a Stop between two messages keep them
  apart; a late Stop of an ended turn does not, while it does for the hook.
- agents/claude-code/src/session-id.ts has the hook's join and the turns read
  every id of a batch alike; on a superseded id they part exactly when a message
  of an open request was folded in after the batch (`HookAgrees`,
  `SupersededSeparates`).
- agents/claude-code/src/session-events.ts takes any failed open for a log that
  is gone, and then reads a log that is still there from its start.
- agents/claude-code/src/permission-routing.ts expects one owner at most. In the
  fallback that holds when deliveries are stamped after the Stops counted before
  them (`RunGuesses`), and fails in the millisecond of a Stop
  (`UnstampedOwnTogether`). By prompt ids it holds iff the running turn has one
  open request at most (`OwnersAreTheTurns`, `FoldedOwnTogether`).

## Model

| member | source | states |
|---|---|---|
| `TurnHistory.RunKeeps` | agents/claude-code/src/turns.ts:218-395 | Over every run of records in any order: the alias map is flat, the open turn's id is no alias and no ended id, both maps hold at most 256 entries and the ended one exactly the last turns in order; the requests started are those of the turns reported ended, in order, then the open turn's; each local turn's events are its start, then its end, before the next one's |
| `TurnHistory.FollowKeeps` | agents/claude-code/src/turns.ts:218-395 | One record keeps all of that, whichever branch it takes |
| `TurnHistory.RunIsTimed` | agents/claude-code/src/turns.ts:328-394 | Fed in nondecreasing time, turns are ordered intervals that do not overlap, back-dated local ones included, and at most the last is open |
| `TurnHistory.ShutdownIsTimed` | agents/claude-code/src/turns.ts:320-322 | Shutting down after such a run closes the last interval |
| `TurnHistory.EndIsTimed` | agents/claude-code/src/turns.ts:382-394 | An end no earlier than the start and the ends before it adds an interval |
| `TurnHistory.SinceComesAfter` | agents/claude-code/src/turns.ts:328-338 | A surfaced turn's back-dated start is never before the end of an earlier turn or the start of the open one |
| `TurnHistory.SurfacedFrom` | agents/claude-code/src/turns.ts:328-338 | A surfaced turn starts exactly where the turn before it ended, when no turn runs and none began since, and otherwise when it showed |
| `TurnRules.TakenTogether` | agents/claude-code/src/turns.ts:218-280 | Over any run: a batch is open only for a message no longer ago than the bound, and no line without an id, typed text or tool call of the turn came since |
| `TurnRules.RecordBatches` | agents/claude-code/src/turns.ts:218-317 | One record leaves a batch open only by taking a message, or by closing none |
| `TurnRules.StoppedAfterItsStart` | agents/claude-code/src/turns.ts:283-317 | Over any run in any order of times: a served turn that a Stop or failure ended began strictly before it |
| `TurnLaws.TakenOrNext` | agents/claude-code/src/turns.ts:234-262 | Over any run, whatever the order of times: a record has requests bound anew iff it is a message under an unknown id at most the batch bound after the message that last opened or extended the open batch; any other message under an unknown id ends the running turn by the next one at its own time, and begins a turn with no request but its own |
| `TurnLaws.MessageBegins` | agents/claude-code/src/turns.ts:244-262 | Such a message, in full: the end told with its kind and time, the new turn with its start, session, deadline and its own request if that binds, and no other binding changed |
| `TurnLaws.MessageJoins` | agents/claude-code/src/turns.ts:241-262 | A message within the batch, in full: no end; the running turn goes by the new id, its requests are rebound in order, its own joins them, the deadline moves |
| `TurnLaws.JoinKeepsNames` | agents/claude-code/src/turns.ts:355-365 | Every id that named the turn names it by the new id, every other keeps its meaning, and of those remembered at most the oldest is forgotten |
| `TurnLaws.MessageFolds` | agents/claude-code/src/turns.ts:256-262 | A message under the running turn's id, in full: folded in, extending a batch that is open and opening none |
| `TurnLaws.SubmitOfEnded` | agents/claude-code/src/turns.ts:227-231 | A submit of a remembered turn does nothing but begin the binding |
| `TurnLaws.SubmitWithoutId` | agents/claude-code/src/turns.ts:219-225 | A submit without an id tells nothing; unless it is a message it closes the batch |
| `TurnLaws.TypedBegins` | agents/claude-code/src/turns.ts:269-270 | Text typed under an unknown id ends the running turn by the next at its own time and begins a local one, of its own session, with no request and no batch |
| `TurnLaws.TypedContinues` | agents/claude-code/src/turns.ts:264-268 | Text typed under the running turn's id closes its batch and changes nothing else |
| `TurnLaws.CallBegins` | agents/claude-code/src/turns.ts:274-280 | A tool call of an unknown turn: the running turn ended by the next where the new one began, and a local one, of the session going on |
| `TurnLaws.CallContinues` | agents/claude-code/src/turns.ts:274-280 | Any other tool call tells nothing; one of the running turn closes its batch |
| `TurnLaws.OwnEndEnds` | agents/claude-code/src/turns.ts:283-317 | A Stop or failure of the running turn, later than its start, ends that turn with itself |
| `TurnLaws.UnknownEnds` | agents/claude-code/src/turns.ts:283-317 | One of an unknown turn tells the end of the running turn, and the start and the end of a local one |
| `TurnLaws.LateEndIsIgnored` | agents/claude-code/src/turns.ts:283-317 | Every other Stop or failure ends nothing; without an id it closes the batch |
| `TurnLaws.ShutdownEnds` | agents/claude-code/src/turns.ts:320-322 | A shutdown tells the end of the running turn, if any, and begins none |
| `TurnLaws.ClocksOverRuns` | agents/claude-code/src/turns.ts:377-394 | Over any run the tracker's two clocks tell when the latest turn began and when a Stop or failure last ended one |
| `TurnLaws.ShownFrom` | agents/claude-code/src/turns.ts:328-338 | Over any run: a turn that a tool call, a Stop or a failure is the first to tell of began when the last turn was stopped, if that is past and none began since, and else at the record |
| `TurnHistory.ResolvesToUnaliased` | agents/claude-code/src/turns.ts:350-352 | One step of resolving is enough: what an id resolves to is no alias, and resolves to itself |
| `TurnHistory.EndedTurnKeepsItsNames` | agents/claude-code/src/turns.ts:200-205 | Every id that names the open turn, those of its batch included, names it still once it ended |
| `TurnHistory.RenamedTurnKeepsItsNames` | agents/claude-code/src/turns.ts:355-365 | After a batch's next message every retained id that named the turn, and the new one, name it under its new id |
| `TurnHistory.RenameKeepsFlat` | agents/claude-code/src/turns.ts:355-365 | Renaming keeps aliases flat: earlier aliases move to the new id |
| `TurnHistory.EndKeepsMemory` | agents/claude-code/src/turns.ts:382-386 | An end remembers the turn last and forgets only the oldest beyond 256 |
| `TurnHistory.EndKeepsSpaced` | agents/claude-code/src/turns.ts:382-386 | Two turns that end under one prompt id have more than 256 ends from one to the other: the id was forgotten by then |
| `TurnHistory.EndKeepsReports` | agents/claude-code/src/turns.ts:382-388 | A remembered turn is one that was reported ended, unchanged |
| `TurnTracking.TurnTracker.constructor` | agents/claude-code/src/turns.ts:182-188 | A tracker that follows no turn, with the last Stop it is told of |
| `TurnTracking.TurnTracker.Resolve` | agents/claude-code/src/turns.ts:350-352 | The id a record's id stands for, in the state the run theorems are about |
| `TurnTracking.TurnTracker.TurnOf` | agents/claude-code/src/turns.ts:200-205 | The open turn or a remembered one, by any of its retained ids |
| `TurnTracking.TurnTracker.Forget` | agents/claude-code/src/turns.ts:213-215 | Only the binding of that request goes |
| `TurnTracking.TurnTracker.BreakBatch` | agents/claude-code/src/turns.ts:345-347 | Only the open turn's batch is closed |
| `TurnTracking.TurnTracker.Begin` | agents/claude-code/src/turns.ts:377-380 | The turn is open and its start remembered, all else unchanged |
| `TurnTracking.TurnTracker.BeginLocal` | agents/claude-code/src/turns.ts:367-375 | A local turn without requests or batch is open, and reported started |
| `TurnTracking.TurnTracker.End` | agents/claude-code/src/turns.ts:382-394 | The open turn, if any, is reported ended once, with its own requests, then its local event |
| `TurnTracking.TurnTracker.MoveAliases` | agents/claude-code/src/turns.ts:357-357 | The loop changes exactly the aliases of the old id, in place |
| `TurnTracking.TurnTracker.Rebind` | agents/claude-code/src/turns.ts:361-364 | The loop binds exactly the turn's requests to the new id, one call each, in order |
| `TurnTracking.TurnTracker.Rename` | agents/claude-code/src/turns.ts:355-365 | State and calls of a rename, whose runs keep the agreement below |
| `TurnTracking.TurnTracker.Surface` | agents/claude-code/src/turns.ts:328-338 | A turn no submit announced begins, back-dated, after the open one ended; nothing for a known turn |
| `TurnTracking.TurnTracker.TakeChannel` | agents/claude-code/src/turns.ts:231-262 | A message begins a turn, is folded in, or renames the batch; it binds only an open request not bound before |
| `TurnTracking.TurnTracker.Submitted` | agents/claude-code/src/turns.ts:218-271 | State and calls after a submit, all branches |
| `TurnTracking.TurnTracker.Activity` | agents/claude-code/src/turns.ts:274-280 | State and calls after a tool call, all branches |
| `TurnTracking.TurnTracker.Finished` | agents/claude-code/src/turns.ts:283-317 | State and calls after a Stop or a failure, all branches, late records included |
| `TurnTracking.TurnTracker.Stopped` | agents/claude-code/src/turns.ts:283-296 | The same for a Stop |
| `TurnTracking.TurnTracker.Failed` | agents/claude-code/src/turns.ts:299-317 | The same for a failure |
| `TurnTracking.TurnTracker.Shutdown` | agents/claude-code/src/turns.ts:320-322 | The open turn ends by shutdown |
| `LedgerHistory.RunCounts` | agents/claude-code/src/permission-routing.ts:228-253 | Over any operations: counted Stops' times strictly increase, a delivery has no first Stop iff none was counted since it, and else exactly the next one counted after it |
| `LedgerHistory.CountedOnce` | agents/claude-code/src/permission-routing.ts:228-236 | Showing any counted Stop again changes nothing |
| `LedgerHistory.RunGuesses` | agents/claude-code/src/permission-routing.ts:310-316 | With deliveries stamped after the Stops counted before them: per interval between Stops only the first delivery can start a turn, and all questions ever sent to one request in the fallback carry one prompt id |
| `LedgerHistory.FallbackJudges` | agents/claude-code/src/permission-routing.ts:283-300 | In the fallback a prompt is ended by exactly the Stop counted next after its delivery, or left to the grace rule, or spared while none was counted |
| `LedgerHistory.OneOwner` | agents/claude-code/src/permission-routing.ts:324-334 | In the fallback at most one open request owns the running turn, and at most one can be asked |
| `LedgerHistory.StartsAfterAStop` | agents/claude-code/src/permission-routing.ts:385-403 | A delivery guessed to start a turn comes after a Stop that came after every earlier delivery |
| `LedgerHistory.UnstampedOwnTogether` | agents/claude-code/src/permission-routing.ts:310-316 | Why the stamping is supposed: two deliveries in the millisecond of the Stop before them both own the next turn |
| `LedgerHistory.FoldedOwnTogether` | agents/claude-code/src/permission-routing.ts:324-334 | By prompt ids two requests folded into one turn own it together |
| `FallbackGuesses.StartsTurnIff` | agents/claude-code/src/permission-routing.ts:310-316 | Over any operations: a delivery is taken to start a turn iff the hooks run, the Stop just read left no background work, neither a tool call nor a delivery came after the last Stop counted, and no open prompt waits that may yet be taken up |
| `FallbackGuesses.AsksOrDenied` | agents/claude-code/src/permission-routing.ts:347-360 | A question is denied at once iff no tool call came after the last Stop counted, or the call has no prompt id, each with its own reason |
| `FallbackGuesses.ReachesTheStarter` | agents/claude-code/src/permission-routing.ts:370-382 | In the fallback a question reaches the one request that started the turn and keeps that turn's id from the first question on; under another id it is denied, and when none started the turn, or several |
| `FallbackGuesses.FallbackOwners` | agents/claude-code/src/permission-routing.ts:324-334 | In the fallback the owners are the open requests taken to start a turn since which no Stop was counted |
| `Ledgers.UnansweredAreJudged` | agents/claude-code/src/permission-routing.ts:263-303 | A request is listed exactly when it is delivered, open and judged ended, with that judgement |
| `Ledgers.UnansweredInOrder` | agents/claude-code/src/permission-routing.ts:271-302 | The list names them in the order delivered, each once |
| `LedgerKeeping.TurnLedger.constructor` | agents/claude-code/src/permission-routing.ts:184-184 | An empty ledger, in the fallback |
| `LedgerKeeping.TurnLedger.StartBinding` | agents/claude-code/src/permission-routing.ts:187-189 | Ownership is by prompt id from now on, nothing else changes |
| `LedgerKeeping.TurnLedger.Bind` | agents/claude-code/src/permission-routing.ts:197-200 | Only that delivery's turn changes; an unknown request changes nothing |
| `LedgerKeeping.TurnLedger.EndOne` | agents/claude-code/src/permission-routing.ts:205-219 | An open bound delivery is ended with the end's own reason and text, or left to the grace rule; any other is unchanged |
| `LedgerKeeping.TurnLedger.EndEach` | agents/claude-code/src/permission-routing.ts:203-221 | The loop ends exactly the open deliveries bound to the turn |
| `LedgerKeeping.TurnLedger.TurnEnded` | agents/claude-code/src/permission-routing.ts:203-221 | The ledger after a turn's end; a shutdown changes nothing |
| `LedgerKeeping.TurnLedger.SeeStop` | agents/claude-code/src/permission-routing.ts:231-233 | The loop gives the Stop to exactly the deliveries made since the last one |
| `LedgerKeeping.TurnLedger.ObserveStop` | agents/claude-code/src/permission-routing.ts:228-236 | The ledger after a Stop, which counts only when newer |
| `LedgerKeeping.TurnLedger.ObserveFailure` | agents/claude-code/src/permission-routing.ts:243-253 | A failure counts as a Stop without background work or text |
| `LedgerKeeping.TurnLedger.JudgeNow` | agents/claude-code/src/permission-routing.ts:270-300 | How an open delivery is ended now, in both modes |
| `LedgerKeeping.TurnLedger.UnansweredNow` | agents/claude-code/src/permission-routing.ts:263-303 | The list and the ledger after it, as the judgement theorems use them |
| `LedgerKeeping.TurnLedger.Delivered` | agents/claude-code/src/permission-routing.ts:310-316 | The delivery is recorded against the Stops counted, with the guess |
| `LedgerKeeping.TurnLedger.Owning` | agents/claude-code/src/permission-routing.ts:324-334 | The loop lists exactly the open owners, in the order delivered |
| `LedgerKeeping.TurnLedger.Forget` | agents/claude-code/src/permission-routing.ts:342-344 | Only that delivery goes |
| `LedgerKeeping.TurnLedger.OwnerOf` | agents/claude-code/src/permission-routing.ts:347-382 | The owner or the denial, and the id kept by the first question |
| `LedgerKeeping.TurnLedger.IsQuiet` | agents/claude-code/src/permission-routing.ts:385-403 | The loop decides whether nothing but this delivery can start the next turn |
| `ChannelServing.Channel.constructor` | agents/claude-code/server.ts:1080-1104 | Tracker and ledger start in the same mode |
| `ChannelServing.Channel.Open` | agents/claude-code/server.ts:509-512 | The requests handed over whose completion has not settled |
| `ChannelServing.Channel.Answer` | agents/claude-code/server.ts:1105-1160 | The hook calls drive the ledger one after another, in order |
| `ChannelServing.Channel.EndOne` | agents/claude-code/server.ts:609-645 | One unanswered request: an error, or its final text on its way, unless settled or being answered |
| `ChannelServing.Channel.EndUnanswered` | agents/claude-code/server.ts:602-647 | The loop over the unanswered |
| `ChannelServing.Channel.Accept` | agents/claude-code/server.ts:757-759 | A request is handed over and delivered |
| `ChannelServing.Channel.Settle` | agents/claude-code/server.ts:568-596 | A completion settles; nothing unsettles it |
| `ChannelServing.Channel.RemovePending` | agents/claude-code/server.ts:544-556 | The request leaves the server, the ledger and the tracker together |
| `ChannelServing.Channel.Question` | agents/claude-code/server.ts:826-838 | A question is put to the ledger with the requests open now |
| `ChannelServing.Channel.PromptSubmitted` | agents/claude-code/server.ts:1166-1169 | Tracker, its calls, then the unanswered |
| `ChannelServing.Channel.ToolCalled` | agents/claude-code/server.ts:1170-1173 | The same for a tool call |
| `ChannelServing.Channel.TurnStopped` | agents/claude-code/server.ts:1180-1185 | The ledger counts the Stop before the tracker hears of it |
| `ChannelServing.Channel.TurnFailed` | agents/claude-code/server.ts:1174-1179 | The same for a failure |
| `AgreementRuns.ReachAgrees` | agents/claude-code/server.ts:1104-1186 | In every state any possible run of the server reaches, tracker and ledger agree on every unfinished request: binding, whose turn runs it, and how it was judged |
| `AgreementRuns.LiveAgrees` | agents/claude-code/server.ts:1104-1186 | Every event keeps the agreement |
| `AgreementRuns.TellAgrees` | agents/claude-code/src/turns.ts:218-317 | Every record told to the tracker keeps it through the hook calls it makes |
| `AgreementRuns.EndUnansweredAgrees` | agents/claude-code/server.ts:602-647 | Ending the unanswered keeps it |
| `Agreement.EndAgrees` | agents/claude-code/src/turns.ts:382-394 | An end, with what the ledger makes of it, keeps it |
| `Agreement.RenameAgrees` | agents/claude-code/src/turns.ts:355-365 | A batch rename, with its rebinding calls, keeps it |
| `Agreement.TakeChannelAgrees` | agents/claude-code/src/turns.ts:231-262 | A message taken, folded, or taken with another keeps it |
| `Agreement.EndedIsRemembered` | agents/claude-code/src/turns.ts:385-386 | An id the open turn bears again was forgotten: more than 256 turns ended since |
| `Outcomes.BindingsAgree` | agents/claude-code/src/permission-routing.ts:197-200 | Read for one unfinished request: the ledger's binding is the tracker's, and once turns are followed the ledger counts it as owning iff it is one of the open turn's |
| `Outcomes.OwnersAreTheTurns` | agents/claude-code/src/permission-routing.ts:318-334 | Once turns are followed the owners are exactly the open requests of the running turn, so at most one iff the turn has at most one |
| `Outcomes.StartsOnce` | agents/claude-code/src/turns.ts:234-262 | Each request starts at most once and is in at most one turn's list |
| `Outcomes.EndsTheJudged` | agents/claude-code/server.ts:602-647 | Exactly the open requests judged are ended, each with its own judgement, the rest untouched |
| `Outcomes.JudgementByTurn` | agents/claude-code/src/permission-routing.ts:263-303 | Once turns are followed every open request has one judgement: none while its turn runs; after its turn ended, the first verdict that an end under its prompt id gave from its own end on, and without one, or never taken into a turn, exactly the grace rule's |
| `Outcomes.StopAnswers` | agents/claude-code/server.ts:1180-1185 | The open turn's own Stop answers each of its open requests with exactly its text, or ends it; with background work only the grace rule may |
| `Outcomes.FailureAnswers` | agents/claude-code/server.ts:1174-1179 | The open turn's own failure ends each of its open requests with an error |
| `ServerLedger.ServerRunsLedger` | agents/claude-code/server.ts:1104-1186 | The server's ledger is a run of the ledger's own operations, so what all such runs keep holds in the server |
| `ServerLedger.SeesTheFirstStop` | agents/claude-code/src/permission-routing.ts:228-236 | In every reachable state a delivery has seen a Stop iff one was counted since it |
| `Endings.JudgedByItsEnd` | agents/claude-code/src/permission-routing.ts:203-221 | Once its turn ended, every open request is judged by that end alone: another turn began; its turn failed, with that very failure; or, a Stop without background work, its turn ended, with that text |
| `Endings.EndReachesItsOwn` | agents/claude-code/src/permission-routing.ts:203-221 | A turn's end changes exactly the open deliveries bound to that turn that had no ending yet, and of them only the ending, or the mark that leaves them to the grace rule |
| `Endings.NextAnswers` | agents/claude-code/server.ts:1166-1185 | The event that tells of the next turn, be it a message past the batch, typed text, a tool call, a Stop or a failure, ends each open request of the running one with an error, unless it was being answered |
| `Endings.SparedOrEnded` | agents/claude-code/src/permission-routing.ts:263-303 | In every reachable state, in both modes: a tick ends an open request without a verdict, and then with an error, iff a Stop was counted since its delivery, no tool call came after the last Stop counted, the grace since that is over, and the running turn is not its own; else it is left as it was |
| `Endings.JudgedByVerdictOrGrace` | agents/claude-code/src/permission-routing.ts:263-303 | The same of the ledger's judgement: its reason is that no turn started, and in the fallback a verdict is the first Stop's text or its failure |
| `Endings.FallbackEnds` | agents/claude-code/server.ts:1174-1185 | In the fallback the first Stop or failure counted since a request that started a turn ends it in the same event, with its text or with an error |
| `Endings.NoneForgotten` | agents/claude-code/src/permission-routing.ts:263-303 | In every reachable state, in both modes, an open request that is not the running turn's, with a Stop counted since its delivery, is ended or answered by the next tick once the grace is over and no tool call came since |
| `ServerLaws.StartsOpenRequests` | agents/claude-code/src/turns.ts:234-262 | A submit starts a request iff it is a message of an open one that was never started, under an id no ended turn had; the request is then bound to the turn running after it |
| `ServerLaws.SettledForGood` | agents/claude-code/server.ts:568-596 | What is settled stays as it is through every event until it is removed; settling settles that request and no other |
| `ServerLaws.AcceptOpens` | agents/claude-code/server.ts:757-759 | A request accepted is open, not being answered, and delivered after all Stops counted so far; every other is as it was |
| `ServerLaws.RemovedFromAll` | agents/claude-code/server.ts:544-556 | A request removed is in none of the server's, the ledger's and the tracker's lists, and every other is where it was |
| `ServerLaws.EndsAreCounted` | agents/claude-code/server.ts:1174-1185 | Once the server heard of a Stop or a failure, the ledger has counted up to its time |
| `ServerLaws.NothingPending` | agents/claude-code/server.ts:602-603 | With nothing pending the ledger is not asked |
| `ForgottenTurns.AnotherTurnsVerdict` | agents/claude-code/src/permission-routing.ts:203-221 | An open request gets the verdict of another turn's end iff its own turn's end gave none and a later one under the same prompt id gave one, more than 256 ends later; then that one's, and else its own turn's or the grace rule's |
| `ForgottenTurns.OwnTurnsVerdict` | agents/claude-code/src/permission-routing.ts:203-221 | While the turns that ended bear different prompt ids, as up to 257 always do, every request gets its own turn's verdict or the grace rule's, never another turn's text |
| `ForgottenTurns.AnotherTurnsText` | agents/claude-code/src/turns.ts:385-386 | For any ids and texts, a run of the server, possible event by event, at whose end a request is answered with the text of a turn that bears its own turn's forgotten id |
| `WaitingRequests.WaitingAt` | agents/claude-code/src/session-id.ts:560-600 | For every log the shared-set loop returns the open requests, in order, whose last submit lies in a run of adjacent channel submits, gaps at most 30 s, some member of which carries the Stop's id |
| `WaitingRequests.JoinLog` | agents/claude-code/src/session-id.ts:583-599 | After the loop each request's shared set is exactly the ids of the run of its last submit |
| `WaitingRequests.TakeIn` | agents/claude-code/src/session-id.ts:593-598 | A channel line shares the batch's set or begins one, and two requests share a set iff their runs are one |
| `WaitingRequests.WaitingIsWho` | agents/claude-code/src/session-id.ts:560-600 | Nothing is told without the server's file; a Stop without an id, or a log without any, is answered with the ledger's owners; else exactly the open requests whose last run holds the id |
| `HookAgreement.HookAgrees` | agents/claude-code/src/session-id.ts:560-600 | On a well-formed log, at a Stop under any prompt id: the hook returns exactly the open requests the tracker, having read the same lines, bound to the turn that id names, iff no open request came under the id the turn goes by outside the run of that prompt id; for an id no longer retained, iff no open request's run holds it |
| `HookAgreement.HookNamesItsTurn` | agents/claude-code/src/session-id.ts:577-599 | Under any id of a batch still retained the hook names requests of that id's turn only |
| `HookAgreement.LastIdAgrees` | agents/claude-code/src/session-id.ts:560-600 | Under the id a turn goes by, which no message took the place of, the two answers are one |
| `HookAgreement.WaitsByTurn` | agents/claude-code/src/session-id.ts:583-599 | By the log alone: a request waits for an id iff its message is of that id's turn and did not come under the turn's last id apart from the id's run |
| `HookAgreement.RunInStep` | agents/claude-code/src/turns.ts:218-262 | Over a well-formed run: every open request is bound to the id its message's id goes by, each run of the log is of one turn, and the ids a turn no longer goes by are all in one run |
| `HookAgreement.ToolCallSeparates` | agents/claude-code/src/turns.ts:274-280 | A tool call between two messages sets hook and tracker apart |
| `HookAgreement.LateStopSeparates` | agents/claude-code/src/turns.ts:283-296 | So does a late Stop of an ended turn between them |
| `HookAgreement.ResubmitSeparates` | agents/claude-code/src/turns.ts:234-234 | So does a request submitted again |
| `HookAgreement.FoldSeparates` | agents/claude-code/src/session-id.ts:583-599 | So does a fold into a turn whose batch is closed |
| `HookAgreement.SupersededSeparates` | agents/claude-code/src/session-id.ts:583-599 | A Stop under a superseded id once a later message was folded in: a log on which the two differ |
| `HookServer.HookFindsTheBound` | agents/claude-code/src/session-id.ts:560-600 | Over any run of the server with a well-formed log, at a Stop under any id: the hook, from the log and the server's file, finds exactly the open requests the ledger has bound to the turn, in the order delivered, iff no message sets one of them apart |
| `HookServer.HookFindsItsTurns` | agents/claude-code/src/session-id.ts:560-600 | Under any id still retained it finds no other turn's request, and under a turn's own id all of that turn's |
| `HookPolling.FileIsTheLog` | agents/claude-code/src/session-events.ts:134-184 | A server whose handlers were called for what the polls of a file heard has, event by event, the log that the hook reads from that file |
| `HookPolling.HookReadsTheSameFile` | agents/claude-code/src/session-id.ts:560-600 | End to end: bytes of the log, polls, server, ledger and hook: from the file itself the hook finds exactly what the ledger has bound, iff nothing sets a request apart, and always under the id the turn goes by |
| `HookServer.TraceTracks` | agents/claude-code/server.ts:1162-1186 | The server's tracker is the one that heard exactly the records of the run's log and the requests removed |
| `HookServer.TraceStaysOpen` | agents/claude-code/server.ts:1106-1106 | A request open now was open whenever its submit came and was never removed |
| `Courses.AdvanceOnCourse` | agents/claude-code/src/turns.ts:218-317 | One record of a well-formed course keeps the tracker on it: its aliases are names of the course, and each open request is bound to the id its message's id goes by |
| `StopHooks.RefusesWhatIsOwed` | agents/claude-code/src/session-id.ts:425-441 | A stop passes after a refused one, and with background work left or not spoken of; any other is refused exactly when the ledger has an open request bound to the turn, naming all of those, iff no message sets one apart; always so under the id the turn goes by, and never naming another turn's under a retained one |
| `StopHooks.TakesItsOwnTurnsText` | agents/claude-code/src/session-id.ts:449-475 | A Stop takes up the text of a stop refused in its own turn only, whether or not an older file could be removed, and none when nothing waits for it |
| `ToolCalls.RunsInItsTurn` | agents/claude-code/src/agent-tools.ts:159-166 | A call without request_id, resolved through a followed turn, runs in a request iff one of that turn's is open, and then in the last open one taken into it, bound to that very turn |
| `ToolCalls.RunsWhere` | agents/claude-code/src/agent-tools.ts:148-175 | Every call: to the request it names, if that is open; else into the last open request of the turn its id names, or of the running one, or that local turn, or outside; without turns, to the request active last if open |
| `ToolCalls.QuestionGoesToItsTurn` | agents/claude-code/src/permission-routing.ts:347-370 | A question of the running turn goes to the one open request the tracker bound to it, and to none when there is none or several |
| `EventWatching.ReadsEachLineOnce` | agents/claude-code/src/session-events.ts:71-107 | Over any polls of an append-only log, whatever part each read gave and whichever opens failed: the offset is 0 or just past a newline, and the lines read are exactly the non-empty complete lines after the mark, in order, once each, iff no open failed while such a line lay before the offset |
| `EventWatching.ReadsAllLines` | agents/claude-code/src/session-events.ts:71-99 | Once a read takes all there is, and nothing was read twice, no complete line after the mark is left |
| `EventLogs.ReadGivesLines` | agents/claude-code/src/session-events.ts:71-99 | One read from a line's start gives the file's lines up to the next line's start |
| `EventLogs.SplitGivesLines` | agents/claude-code/src/session-events.ts:89-93 | Splitting at newlines and dropping empty parts gives the complete lines and leaves the half-written one |
| `EventWatching.FailedOpenReadsTwice` | agents/claude-code/src/session-events.ts:71-79 | A watcher whose open fails once between two whole reads of a log reads every line of it twice |
| `EventWatching.SortedInTime` | agents/claude-code/src/session-events.ts:182-184 | One poll's records are reported in the order of their times, each once |
| `EventWatching.SortedKeepsOrder` | agents/claude-code/src/session-events.ts:182-184 | Records of one kind read in the order of their times are reported in the order read |
| `EventWatching.HearsEachEventOnce` | agents/claude-code/src/session-events.ts:134-184 | Over all polls the log's events are reported once each and in the log's order, if their times are |
| `EventHearing.HearsEachCallOnce` | agents/claude-code/src/session-events.ts:138-174 | Over any polls, by the files alone: the tool calls heard are, in order and once each, those whose time was not that of the one seen before, the mark's first; the sessions heard likewise, none being known at the mark |
| `EventHearing.StopsAreOfTheLastSession` | agents/claude-code/src/session-events.ts:158-163 | Over any polls every Stop is told with its own session, or else with the one told of last before it |
| `EventHearing.PollTellsInOrder` | agents/claude-code/src/session-events.ts:176-178 | One poll tells what it has in the order of its times, and at one time the session, then the log's events, then the tool call |
| `EventHearing.ParsedAre` | agents/claude-code/src/session-events.ts:151-153 | The events taken up are those of the lines that parse, in order |
| `EventLogs.ReadLeavesNoLine` | agents/claude-code/src/session-events.ts:79-93 | Of what a read took, it leaves no complete line unread |
| `EventLogs.OtherReads` | agents/claude-code/src/session-events.ts:80-96 | A log shorter than it was is read from its start; one that cannot be read is left where it was |
| `EventWatching.EventWatcher.constructor` | agents/claude-code/src/session-events.ts:102-107 | A watcher begins where the complete lines ended |
| `EventWatching.EventWatcher.Collect` | agents/claude-code/src/session-events.ts:151-169 | The loop takes up exactly the lines that parse |
| `EventWatching.EventWatcher.ReportAll` | agents/claude-code/src/session-events.ts:184-184 | The reports, one after another, a Stop's session being the one reported last |
| `EventWatching.EventWatcher.PollOnce` | agents/claude-code/src/session-events.ts:134-185 | One poll |
| `Extensions.RunsOnce` | agents/claude-code/src/extensions.ts:787-800 | For any list of wrappers with any synchronous behaviour: the step runs once, its outcome is the outcome, and each wrapper is reported for exactly what it did wrong |
| `Extensions.ReportedIfMisbehaved` | agents/claude-code/src/extensions.ts:716-784 | A wrapper goes unreported iff it called run once and passed on what it gave, or swallowed the step's error |
| `Extensions.ReportedFor` | agents/claude-code/src/extensions.ts:716-784 | For what a wrapper is reported: more than one run; none, or an error the step did not throw; another value, promises aside |
| `Extensions.GuardedOnce` | agents/claude-code/src/extensions.ts:716-784 | One wrapper around a step that runs once |
| `ExtensionHosting.ExtensionHost.constructor` | agents/claude-code/src/extensions.ts:638-642 | A host that reported nothing yet |
| `ExtensionHosting.ExtensionHost.LogOnce` | agents/claude-code/src/extensions.ts:638-642 | A report is made once |
| `ExtensionHosting.ExtensionHost.Next` | agents/claude-code/src/extensions.ts:792-799 | The nested wrappers from one on, around the step |
| `ExtensionHosting.ExtensionHost.Guarded` | agents/claude-code/src/extensions.ts:716-784 | The flags of one guarded wrapper |
| `ExtensionHosting.ExtensionHost.WrapAll` | agents/claude-code/src/extensions.ts:787-800 | The step runs exactly once and the outcome is the step's own |
| `PromptDispatch.AnswersInOrder` | agent-sdk/typescript/src/service.ts:1038-1157 | Every answer ends with its one terminator; it has one error frame, right before it, iff the request was refused or failed before the handler completed; its code says why; it is acknowledged, first of all, iff the innermost next was reached, and then the handler ran, once (sections 6.4, 6.5 and 9.3) |
| `PromptDispatch.AtInOrder` | agent-sdk/typescript/src/service.ts:1223-1234 | Whatever the interceptors do, nothing precedes the ack, and only acks and chunks are sent |
| `PromptAnswers.SendsTheHandlersFrames` | agent-sdk/typescript/src/service.ts:1102-1157 | Whatever the interceptors do: the answer is its end alone, or the ack, exactly the handler's texts in order with the acks that keep it alive, and its end, without an error when the handler completed |
| `PromptAnswers.PassedOnAnswers` | agent-sdk/typescript/src/service.ts:1102-1157 | With no interceptors, or such as pass on what they awaited: all the frames, with an error iff the handler threw, of its own code or 500 |
| `PromptAnswers.AnswersForNext` | agent-sdk/typescript/src/service.ts:1117-1121 | An interceptor that comes to a result without calling next: no ack, and its own error, or 500 |
| `PromptAnswers.AnswersAfterNext` | agent-sdk/typescript/src/service.ts:1122-1147 | One that comes to a result of its own after next: its error is told only when the handler threw, and the handler's is not |
| `PromptAnswers.SecondCallThrows` | agent-sdk/typescript/src/service.ts:1103-1103 | A second call of next throws, and runs no handler |
| `PromptDispatching.Dispatcher.constructor` | agent-sdk/typescript/src/service.ts:1084-1100 | A dispatch that sent nothing |
| `PromptDispatching.Dispatcher.Fire` | agent-sdk/typescript/src/service.ts:1186-1194 | The timer acknowledges only while it is set |
| `PromptDispatching.Dispatcher.Serve` | agent-sdk/typescript/src/service.ts:1102-1108 | The innermost next |
| `PromptDispatching.Dispatcher.At` | agent-sdk/typescript/src/service.ts:1228-1232 | The chain of awaited interceptors from one on |
| `PromptDispatching.Dispatcher.Dispatch` | agent-sdk/typescript/src/service.ts:1038-1157 | The frames sent, and the handler's runs |
| `InternalClosures.ClosureIsReachable` | devtools/release/release.py:930-953 | The closure succeeds iff nothing reachable is unknown or on a cycle; it is then exactly what is reachable, without duplicates, dependencies first; a failure names such a package |
| `InternalClosures.LayeredCloses` | devtools/release/release.py:229-234 | With edges that lower the layer, the closure fails only for an unknown package and lies in lower layers |
| `InternalClosures.VisitAdds` | devtools/release/release.py:937-949 | A visit adds only what the package reaches, nothing being visited, dependencies first |
| `InternalClosures.VisitFails` | devtools/release/release.py:937-949 | A visit that fails names a package that is unknown, or reaches itself |
| `ClosureBuilding.ClosureBuilder.constructor` | devtools/release/release.py:934-935 | Nothing visited yet |
| `ClosureBuilding.ClosureBuilder.Visit` | devtools/release/release.py:937-949 | The visit in place: result and visiting after it |
| `ClosureBuilding.ClosureBuilder.VisitEach` | devtools/release/release.py:946-947 | The loop over a package's edges |
| `ClosureBuilding.BuildClosure` | devtools/release/release.py:930-953 | The whole closure, which terminates |
| `ReleasePlans.SortedInLayers` | devtools/release/release.py:961-964 | The build order is the entries given, by layer and then by id |
| `ReleasePlans.CheckedLayersDrop` | devtools/release/release.py:229-234 | A validated plan's edges lower the layer |
| `ReleasePlans.ClosureIsBuilt` | devtools/release/release.py:1203-1214 | Every package of an entry's closure was built before it |
| `ReleasePlans.ClosuresSucceed` | devtools/release/release.py:1203-1214 | No closure fails iff no edge leaves the npm packages to be published |
| `ReleaseBuilding.NamesDiffer` | devtools/release/release.py:166-178 | Whether all names differ |
| `ReleasePlans.TextLeIs` | devtools/release/release.py:961-964 | Ids come in the order of their code points: a prefix first, else by the first difference |
| `ReleaseBuilding.EdgesKnown` | devtools/release/release.py:217-227 | Whether every edge names one of the given packages |
| `ReleaseBuilding.LayersLower` | devtools/release/release.py:229-234 | Whether every edge lowers the layer |
| `ReleaseBuilding.ValidatePlan` | devtools/release/release.py:217-234 | Accepts, of edges and layers, exactly the plans whose edges are known, released where they must be, and lower the layer, and whose names differ |
| `ReleaseBuilding.BuildNpm` | devtools/release/release.py:1203-1215 | With a validated plan no artifact is looked up before it was built; the build fails iff an edge leaves the npm packages; each install gets its closure's artifacts |
| `StreamScan.RefusesExactly` | devtools/release/release.py:1000-1009 | For literals up to 4097 bytes the scan by pieces refuses a file iff one occurs in it, in any case of letters |
| `StreamScan.LongerIsMissed` | devtools/release/release.py:1000-1009 | The bound is exact: any longer lower-case literal is missed in some file cut in two |
| `StreamScan.WindowHolds` | devtools/release/release.py:1006-1009 | Tail and chunk hold every occurrence that ends in the chunk, and no other than the file's |
| `StreamScan.ForbiddenIs` | devtools/release/release.py:974-978 | What is looked for is a literal, anywhere, byte for byte, with capitals read as small letters |
| `StreamScan.InspectStream` | devtools/release/release.py:1000-1009 | The loop with the carried tail |
| `SessionManagers.RunKeeps` | agents/codex/src/session-manager.ts:112-146 | Over any reconciles, whatever was found and failed: a remembered name never changes, misses stay below the grace and make a session stale, and the baseline of a future-only start is never exposed |
| `SessionManagers.ReconcileKeeps` | agents/codex/src/session-manager.ts:112-146 | One reconcile keeps that, wherever it breaks off |
| `SessionManagers.ReconcileTells` | agents/codex/src/session-manager.ts:112-146 | What a whole reconcile makes of every session, found or not |
| `SessionManagers.StoppedWhenGraceIsOver` | agents/codex/src/session-manager.ts:135-144 | A session missed in a row is kept until its misses reach the grace, and stopped at that one |
| `SessionManagers.StartedIsValid` | agents/codex/src/session-manager.ts:85-97 | A future-only start takes exactly the sessions found into the baseline |
| `SessionManagers.AliasesDiffer` | agents/codex/src/session-manager.ts:119-133 | Over any reconciles: while no two sessions ever discovered derive one alias, no two that run go by one |
| `SessionManagers.StaysDistinct` | agents/codex/src/session-manager.ts:119-144 | Names stay apart through a reconcile that threw nothing iff it starts no session under a name that another starts under or still holds |
| `SessionManagers.StaleHolds` | agents/codex/src/session-manager.ts:135-144 | Where names remembered are those derived, such a name is held by a session gone stale within its grace |
| `SessionManagers.TwoUnderOneAlias` | agents/codex/src/session-manager.ts:284-307 | Two passes after which two sessions run under one alias: the first went stale when the second was discovered |
| `SessionBreakOffs.ReconcileSucceeds` | agents/codex/src/session-manager.ts:112-146 | A reconcile throws nothing iff no two rows derive one name, every start it needs succeeds, and every stop; with such rows it does nothing |
| `SessionBreakOffs.StartFails` | agents/codex/src/session-manager.ts:120-134 | At a failed start: the rows before were taken, the name is kept, nothing after it is touched and no session ages |
| `SessionBreakOffs.StopFails` | agents/codex/src/session-manager.ts:136-144 | At a failed stop: every row was taken, the missed sessions before it, in the order they run, are a miss older or stopped, and it and all after it are as they were |
| `SessionBreakOffs.SeedingNotes` | agents/codex/src/session-manager.ts:85-97 | A start that only notes: every session found is in the baseline under its name, and none runs |
| `SessionBreakOffs.AliasIsTheLastRows` | agents/codex/src/session-manager.ts:284-307 | The name derived for a session is that of the last row it was found in |
| `SessionManaging.AllocateAliases` | agents/codex/src/session-manager.ts:284-307 | Names are given iff no two sessions would share one |
| `SessionManaging.SessionManager.constructor` | agents/codex/src/session-manager.ts:60-75 | Nothing runs, nothing is remembered |
| `SessionManaging.SessionManager.ShouldExpose` | agents/codex/src/session-manager.ts:184-189 | Whether a session is exposed |
| `SessionManaging.SessionManager.TakeRow` | agents/codex/src/session-manager.ts:119-133 | A discovered session: kept, started under its name, noted, or the start that failed |
| `SessionManaging.SessionManager.Age` | agents/codex/src/session-manager.ts:135-144 | A missed session: stale once more, or stopped |
| `SessionManaging.SessionManager.TakeEach` | agents/codex/src/session-manager.ts:119-133 | The loop over the rows, broken off by a failed start |
| `SessionManaging.SessionManager.AgeEach` | agents/codex/src/session-manager.ts:135-144 | The loop over the running sessions, broken off by a failed stop |
| `SessionManaging.SessionManager.Reconcile` | agents/codex/src/session-manager.ts:112-146 | One reconcile |
| `JsonRpc.ChunkingAside` | agents/codex/src/codex-jsonrpc.ts:111-128 | Text cut anywhere dispatches the same messages and leaves the same buffer |
| `JsonRpc.RunPartitions` | agents/codex/src/codex-jsonrpc.ts:80-180 | Over any run each request id is allocated once and settled at most once; pending and settled ids partition the allocated ones; nothing is pending once closed (JSON-RPC 2.0, section 5) |
| `JsonRpc.AnsweredRoundTrip` | agents/codex/src/codex-jsonrpc.ts:80-144 | A request and the server's answer to it: settled with that answer, and the client as before but for the id used |
| `JsonRpc.DrainOnward` | agents/codex/src/codex-jsonrpc.ts:111-128 | Draining after more text arrived is draining before and after it |
| `JsonRpc.LineTells` | agents/codex/src/codex-jsonrpc.ts:111-153 | One whole line: an answer settles the request that waits for it, by its error first; a request is asked, a notification notified, a line that is no message complained of, and nothing else told or changed |
| `JsonRpc.ClosesOnce` | agents/codex/src/codex-jsonrpc.ts:170-179 | A close rejects every waiting request, in order, once; none is taken after it |
| `JsonRpc.RequestWaits` | agents/codex/src/codex-jsonrpc.ts:80-95 | A request gets an id of its own, and waits iff its line was written |
| `JsonRpc.TimesOut` | agents/codex/src/codex-jsonrpc.ts:89-92 | A timer settles the request it is for, if that waits, and no other |
| `JsonLineRpc.JsonLineRpcClient.constructor` | agents/codex/src/codex-jsonrpc.ts:53-70 | Open, with nothing pending |
| `JsonLineRpc.JsonLineRpcClient.Request` | agents/codex/src/codex-jsonrpc.ts:80-95 | A new id is pending, or the write failed, or the client is closed |
| `JsonLineRpc.JsonLineRpcClient.OnData` | agents/codex/src/codex-jsonrpc.ts:111-128 | The loop dispatches every whole line and keeps the rest |
| `JsonLineRpc.JsonLineRpcClient.Dispatch` | agents/codex/src/codex-jsonrpc.ts:130-154 | A response settles its request if pending; other messages settle none, and are told to the outside once |
| `JsonLineRpc.JsonLineRpcClient.TimeOut` | agents/codex/src/codex-jsonrpc.ts:89-92 | A timer settles its request if pending |
| `JsonLineRpc.JsonLineRpcClient.Close` | agents/codex/src/codex-jsonrpc.ts:170-179 | Everything pending is rejected, in order, once |
| `PollSchedulers.OneAtATime` | agents/codex/src/session-watch.ts:28-56 | The task never runs twice at once |
| `PollSchedulers.EveryTriggerIsServed` | agents/codex/src/session-watch.ts:28-56 | Over any events: a trigger is followed by a run of the task iff the task was running and ended by a result with nothing stopped, or this or a later trigger found the scheduler idle and not stopped |
| `PollSchedulers.RunningTaskServes` | agents/codex/src/session-watch.ts:28-56 | After any history: a trigger while the task runs, not stopped, begins another run iff that task ends by a result |
| `PollSchedulers.GapForgets` | agents/codex/src/session-watch.ts:35-40 | A trigger between a drain's end and its trigger's return is forgotten |
| `PollSchedulers.StoppedForGood` | agents/codex/src/session-watch.ts:43-47 | Once stopped, no event begins a run of the task |
| `PollSchedulers.RunsWhenAsked` | agents/codex/src/session-watch.ts:28-54 | A run begins only with a trigger, or for one that none was begun after |
| `PollSchedulers.BoundedPollScheduler.constructor` | agents/codex/src/session-watch.ts:12-21 | Idle |
| `PollSchedulers.BoundedPollScheduler.Trigger` | agents/codex/src/session-watch.ts:28-36 | Begins the task, or leaves a mark for the one running |
| `PollSchedulers.BoundedPollScheduler.TaskEnded` | agents/codex/src/session-watch.ts:49-55 | The task runs again iff it was asked for, succeeded and was not stopped |
| `PollSchedulers.BoundedPollScheduler.Stop` | agents/codex/src/session-watch.ts:43-47 | No run begins from now on |

## Left out

Contracts narrower than one might read them:

- HookAgreement.HookAgrees: a Stop recorded under a superseded id is not part of a well-formed log; the question is what the hook and the tracker make of such an id, which is answered for every one.
- HookServer.HookFindsTheBound: takes the lines of the log to be those the server's tracker heard since it started; lines an earlier server's turns left before the mark are not part of the log modelled, and `HookPolling` supposes there are none.
- Outcomes.StopAnswers: a text on its way counts as the answer; that its sending may fail, which settles the request with an error, is the event `Settle`.
- LedgerHistory.RunGuesses: supposes that deliveries are stamped strictly after the Stops counted before them, which two clocks could break.
- Extensions.RunsOnce: wrappers that return; calls of `run` after the wrapper returned, from an asynchronous part of it, are not modelled, nor the observing of its promise.
- PromptDispatch.AnswersInOrder: interceptors await `next`, and a frame counts as sent though the connection may be gone; a handler failure that an interceptor swallows leaves an answer without an error frame, as in the code.
- StreamScan.RefusesExactly: literals only; the patterns with word boundaries or lookbehind can match differently at a window's edge.
- ReleaseBuilding.ValidatePlan: names, edges and layers; the checks of schema, paths, smoke tests and toolchain are not part of this model.
- ReleaseBuilding.BuildNpm: the build of the whole plan; the candidate build of one package uses no closure.
- SessionManagers.RunKeeps: reconciles one after another; the code does not keep two from overlapping.
- JsonLineRpc.JsonLineRpcClient.Dispatch: a server's own request is told to its handler; the handler and the reply it writes are not part of this model.
- JsonRpc.RunPartitions: the transport calls back only between calls, and listeners do not call into the client while a chunk is handled.
- EventWatching.ReadsEachLineOnce: the log is only appended to; of a log cut short or replaced `OtherReads` says what one read does, and no theorem over polls is about it.

Not modelled at all:

- NATS, MCP, sockets, child processes, `ask`, `callerListening` and the permission dialogue after its owner is known: calls into code that is not part of this model.
- Atomic writes, pid liveness and the removal of a process's files: each file is a cell, the log a sequence that grows.
- JSON, TOML and the syntax of ids: records are datatypes and parsers are parameters; splitting text at newline characters is taken to be splitting bytes at 0x0a, which UTF-8 allows.
- The one-line file of the latest tool call, beyond the record a poll reads from it, and the times it keeps of a turn's first call.
- The `started`, `ended` and `callerGone` marks of a pending request and the events extensions get of prompts: they steer no binding.
- The expiry of requests and of the final text's slices, which settle a request as `Settle` does.
- Poll calls made from within a handler, which the watcher's flag turns into nothing.
- Asynchronous wrappers, heartbeats, status requests, the sender gate, attachments, chunk encoding.
- The NKEY, token and JWT patterns of the release scanner, tarball and wheel inspection, staging and freezing.
- Endpoint discovery, the registrar and the scoped client of the session manager; `stop`, which stops all.
- Other agents, the client SDKs, configuration loaders, command lines and examples.
