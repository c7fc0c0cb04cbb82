# Verification model of the data analysis agent server

The server runs an LLM agent: a conversation grows turn by turn, tools run in batches, the history is
compacted under context pressure, everything is logged as events, and after a restart the conversation is
rebuilt from the log. This project models the stateful cores of that server in Dafny and proves what they keep.

- `Conversation.dfy`, `Compaction.dfy`: the conversation's items, the pairing of tool calls with results, the
  repair that enforces it, and compaction (boundary search, pinned task, dropped span, delegated children).
  `CompactionExact.dfy`: exactly what a compaction drops.
- `HistoryFold.dfy`: the event log and the fold that rebuilds a conversation from it, as a function and as the
  mutable folder object.
- `Session.dfy`: one session as a state machine over conversation, omitted count, digest, suspension and log. Model
  replies, tool outcomes, context pressure, cancellations and restarts are arbitrary inputs of its steps.
- `RunPath.dfy`, `RunMeaning.dfy`: the script of a run, the path of that machine it takes, and what that path does to
  conversation, log and open question, reply by reply.
- `EngineLoop.dfy`: the engine object with the fields its methods update, from the main loop down to single calls,
  proved to take only such paths. `TrimRun.dfy` counts what a run keeps on the trim path.
- `Simulation.dfy`, `SparseHistory.dfy`: replay refines the live engine. `Divergence.dfy`: why each condition of that
  theorem is needed. `Conservation.dfy`: what replay conserves for batches of any size. `EngineReplay.dfy` carries
  both theorems over to engine objects. `ForeignResults.dfy`: results outside their own turn.
- `Scheduler.dfy`: a batch of tool calls with its goroutines, budget, barriers, retries and cancellation interleaved.
- `PersistQueue.dfy`, `EventStream.dfy`: the event persistence queue with its shutdown, and event delivery to one
  connection with cursor replay, dedupe and overflow (section 9.2 of the WHATWG HTML Living Standard).
- `Slices.dfy`: the slice planner. `SqlScan.dfy`: the two SQL scanners and identifier quoting (section 5.2 of
  ISO/IEC 9075-2). `Goals.dfy`: the goal forest. `Receipts.dfy`: approval receipts. `Jobs.dfy`: background jobs.
  `Paging.dfy`: spilled results. `Strings.dfy`: trimming, first words and UTF-8 lengths (section 3 of RFC 3629).

`dafny verify dfyconfig.toml` checks everything.

## What holds, and what does not

Replay (`Simulation.Faithful`). A rebuilt conversation is the live one exactly as long as no step of these kinds is
taken; each is an ordinary path of the code, and `Divergence.dfy` proves for every one that it leads log and engine apart:

- a run is cancelled between logging the user's message and the first request (`server/agent/engine.go:598-631`);
- a run is cancelled between logging a tool result and recording it, or the result cannot be compacted
  (`server/agent/engine.go:890-914`);
- a batch is refused after its text was logged (`server/agent/engine.go:655`, `server/agent/engine.go:729`);
- text is blank but not empty: the engine keeps it, the fold drops it;
- an answer is refused after it was logged (`server/handler/chat.go:355-376`): the fold takes it as the answer;
- a refused call's result is too long for the history: it is stored whole and folded cut;
- suspension arguments are invalid: a result is logged without its call (`server/agent/engine.go:816`). Without text before it
  the fold can leave a foreign result in the previous turn's run, which repair keeps, against its own documentation, and
  which is sent after a restart (`ForeignResults.ForeignResultRebuilt` is the run, `ForeignResults.BadSuspensionExact` says
  for which states it happens, `Conversation.RepairExact` what repair makes of it);
- a compaction drops a part of the history that holds a result synthesized by repair: the log never held it, so the
  checkpoint counts other items;
- a batch of several calls, or a text-less call right after a draft: the fold groups the calls otherwise. What was said,
  called and returned is still all there, wherever the run was cut off (`Conservation.ReplayConservesContent`, under the
  conditions of `Conservation.Settled`).

`Faithful` is a condition on the step about to be taken. For all steps but a batch and a suspension it is exact: `StepTracks`
gives one direction, `ExcludedStepsDiverge` the other. For a batch of several calls the divergence shows as soon as its turn is in
the history, in every session (`WholeBatchDiverges`), for a text-less call after a draft when it has run
(`MergedDraftDiverges`); a suspension is excluded only when its call id is empty.

The closing request after a finalize call is built in the middle of a batch, so it is paired only if that call is the last
one (`Session.ClosingRequestPaired`). A call that shares its id with an earlier parallel-safe call is not run and gets that
call's result; two exclusive calls with one id are both run (`Scheduler.SharedIdRunsOnce`). A batch can end with calls left
although nothing was cancelled: a call may deliver the report, suspend or fail the run (`Scheduler.EndsShort`). A slow client
can see a gap, because dropping an event and flagging the overflow are two steps (`EventStream.TornDropSkips`); it does exactly
when its handler takes more, after the first drop, than its channel holds (`EventStream.TakenWithoutGaps`). A quoted identifier
is safe exactly where the scanner is in normal text (`SqlScan.EmbeddingSafeExactly`), also next to other quotes, and not inside
a comment. A spilled result reads back whole exactly as long as no other content stands under its digest
(`Paging.SpillStore.SpillToolResult`).

## Conventions of the model

- The conversation forgets reasoning text, the tool name stored beside a result, receipt ids inside answers and the arguments of
  the suspending call. Arguments are compared as the JSON values they are.
- `Keep` is how a raw result enters the history (strip, prune, spill): one arbitrary function, the same live and in the fold.
- Fresh ids and time are parameters and counters, the spill digest is any function that gives ids of the right form, and the
  white space rules of `strings.TrimSpace` are written out. Go's `int` is unbounded here; the quantities are lengths, pixels and
  small counts.
- Interleavings are runs of atomic steps; a critical section under a lock is one step, and so is one channel operation.
- `Engine.steps`, `sent` and `phase` are ghost: the path taken, the requests sent, and where the run stands.

## Model

| member | source | states |
|---|---|---|
| Conversation.RepairToolPairing | server/agent/history_rebuild.go:250-285 | the repair loop computes `Repair` and its result is always paired |
| Conversation.TakeRun | server/agent/history_rebuild.go:263-268 | copies exactly the contiguous run of results from a position, with the ids it answers |
| Conversation.AnswerMissing | server/agent/history_rebuild.go:269-282 | synthesizes one unknown-outcome result, in call order, for each unanswered call but the skipped one |
| Conversation.RepairPairs | server/agent/history_rebuild.go:243-285 | for any item list at all the repaired list is paired, but for the skipped call |
| Conversation.RepairFixpoint | server/agent/history_rebuild.go:250-285 | repair is the identity exactly on paired lists, and repairing twice is repairing once |
| Conversation.RepairConcat | server/agent/history_rebuild.go:250-285 | repair distributes over any cut that does not fall before a result |
| Conversation.RepairKeepsSpeech | server/agent/history_rebuild.go:254-261 | every item that is not a result is kept, in order |
| Conversation.RepairSkipsOrphans | server/agent/history_rebuild.go:254-257 | results in front of a turn are dropped without a trace |
| Conversation.RepairExact | server/agent/history_rebuild.go:243-248 | the documented "no result without an owning call" holds after repair if and only if no run held a foreign result before it |
| Conversation.RepairedTurn | server/agent/history_rebuild.go:262-283 | a turn with calls keeps its results as they stand, then one result per unanswered call in order, under that call's own id and tool name; a turn without calls loses what stands behind it |
| Conversation.MissingNames | server/agent/history_rebuild.go:269-282 | the synthesized results are exactly those of the unanswered calls but the skipped one, in call order, each naming its own tool |
| Conversation.PairedIsByPosition | server/agent/history_rebuild.go:243-249 | the recursive notion of pairing is the one read off positions: every result stands in the run right after a turn with calls, every call is answered in its own run |
| Compaction.AdjustCompactionBoundary | server/agent/engine.go:411-446 | the backward search with its inner counting and text searches computes `AdjustedBoundary`, which `CompactionExact.AdjustedByPosition` reads off positions |
| Compaction.CountResults | server/agent/engine.go:423-430 | counts the results right after a turn, up to its number of calls |
| Compaction.BoundarySplitsTurns | server/agent/engine.go:411-446 | on a paired history the adjusted boundary never falls before a result |
| Compaction.PinnedHistoryItems | server/agent/compaction.go:133-147 | the scan for the pinned prefix computes `Pinned` |
| Compaction.PinnedIsFirstTask | server/agent/compaction.go:133-147 | the pinned prefix ends with the first user turn when no tool call comes before it |
| Compaction.SelectCompactionSpan | server/agent/compaction.go:117-131 | returns the span, its length and the pinned count of `SelectSpan`, which `CompactionExact.DropsExactly` determines |
| Compaction.CompactionKeepsPairs | server/agent/compaction.go:112-131 | pinned prefix, dropped span, kept tail and what remains are each paired, for every paired history |
| Compaction.CompactionKeeps | server/agent/compaction.go:112-165 | of any history the first user turn and at least the last 12 items survive word for word, and a compaction that drops anything strictly shrinks it |
| CompactionExact.AdjustedByPosition | server/agent/engine.go:411-446 | for every history and boundary, the boundary lands in front of the turn that owns it, or, if that has too few results, right after the last text of the five items before it, or stays; and nowhere else |
| CompactionExact.AdjustedIsGreatestStart | server/agent/engine.go:411-446 | on a paired history with complete batches the adjusted boundary is the greatest turn start at or below the wanted one |
| CompactionExact.DistinctAreComplete | server/agent/engine.go:422-431 | in a paired history every batch with distinct call ids is complete |
| CompactionExact.DropsExactly | server/agent/compaction.go:117-131 | a compaction drops something if and only if a turn starts above the pinned items and leaves the last 12, and then all up to the last such turn |
| CompactionExact.DropsWhereItLands | server/agent/compaction.go:117-131 | on any history it drops up to where the boundary lands, if and only if that lies above the pinned items |
| CompactionExact.TrimsExactly | server/agent/engine.go:265-292 | a child over its budget is trimmed to where the boundary lands, and the rest is counted |
| CompactionExact.TrimsOnlyOverBudget | server/agent/engine.go:265-279 | nothing is trimmed within the budget, or of a conversation of 12 items or fewer |
| CompactionExact.PinnedNothing | server/agent/compaction.go:133-147 | nothing is pinned if and only if a tool call stands before every user turn |
| Compaction.CompactWorkerBundle | server/agent/engine.go:265-292 | the delegated child's trim computes `TrimWorker` |
| Compaction.WorkerTrimKeeps | server/agent/engine.go:265-292 | a child's trim keeps pairing and omitted plus length |
| Compaction.WorkerRunConserves | server/agent/engine.go:258-292 | over a whole child run omitted plus length equals what was there plus what was appended, and the history stays paired |
| TrimRun.TrimmingConserves | server/agent/compaction.go:150-165 | over a whole run of the main loop on the trim path, omitted plus held items equal the start plus everything said |
| HistoryFold.HistoryFolder.DoFlush | server/agent/history_rebuild.go:224-234 | the pending assistant message is appended unless it is blank and has no calls |
| HistoryFold.HistoryFolder.PendingToolCall | server/agent/history_rebuild.go:213-222 | a call joins the pending message, which is created if there is none |
| HistoryFold.HistoryFolder.ApplyCompactionCheckpoint | server/agent/history_rebuild.go:166-200 | the checkpoint drops the shadowed items after the pinned ones, with both clamps, and keeps the digest or counts the omission |
| HistoryFold.CheckpointDrops | server/agent/history_rebuild.go:166-200 | counts in range drop exactly the items after the pinned ones; a pinned count out of range is none, a shadowed count out of range drops nothing; a digest replaces the count |
| HistoryFold.HistoryFolder.ConsumeEvent | server/agent/history_rebuild.go:69-160 | one event changes the folder exactly as `Consume` says, for every event kind |
| HistoryFold.RebuildHistoryFromMessages | server/agent/history_rebuild.go:33-51 | the fold over a whole log, flushed and repaired, is `Rebuild` |
| HistoryFold.RebuildPairs | server/agent/history_rebuild.go:47-50 | whatever the log holds, the rebuilt conversation is paired but for an open question |
| HistoryFold.ReplayMore | server/agent/history_rebuild.go:40-44 | folding a log that grows is folding on from where the fold stands |
| Session.StepKeepsPairs | server/agent/engine.go:547-945 | every step of the session machine keeps: sent requests and the history at every loop head are paired, the open batch is answered up to its next call |
| Session.RequestsPaired | server/agent/engine.go:536-945 | over every run of steps from any starting history, with cancels, errors, suspensions, compactions and restarts anywhere, every main-loop request is paired |
| Session.LeavePairs | server/agent/engine.go:394-398 | after every exit path the history is paired but for the call the run suspended on |
| Session.ClosingRequestPaired | server/agent/engine.go:924-935 | with distinct call ids the post-finalize request is paired if and only if the finalize call is the last of its batch |
| Session.LatestAsksByPosition | server/agent/engine.go:1152-1171 | the asks an answer may belong to are those of the last item that has any |
| EngineLoop.Engine.ApplyCompaction | server/agent/compaction.go:150-165 | replaces the span in place; the omitted count or the digest changes, never both |
| EngineLoop.Engine.PrepareRequestBundle | server/agent/compaction.go:218-263 | under pressure the engine compacts, logs the checkpoint and sends the remaining history |
| EngineLoop.Engine.RepairDanglingToolCalls | server/agent/engine.go:394-398 | the deferred repair on every exit |
| EngineLoop.Engine.ClearAbandonedSuspension | server/agent/engine.go:404-409 | an abandoned question is forgotten and answered as unknown |
| EngineLoop.FindPending | server/agent/engine.go:1155-1176 | the backward scan returns the user-response calls of the latest turn that has any |
| EngineLoop.HasResult | server/agent/engine.go:1186-1193 | the backward scan finds whether any result names the call |
| EngineLoop.Engine.ProvideAskUserResult | server/agent/engine.go:1136-1248 | the answer is taken exactly when the actor is authenticated, the latest asking turn has one unanswered ask, and an authorization it asks for is decided; it then becomes the ask's result |
| EngineLoop.Engine.CheckBatch | server/agent/engine.go:949-970 | a batch is refused exactly when it holds a suspending call and is not that call alone |
| EngineLoop.Engine.BlockToolCall | server/agent/engine.go:1253-1307 | a refused call is logged with its denial and result and answered in the history, as the machine's `Block` step |
| EngineLoop.Engine.SuspendOn | server/agent/engine.go:785-843 | a valid suspension leaves its call unanswered and ends the run; invalid arguments are answered and the batch goes on |
| EngineLoop.Engine.TakeCall | server/agent/engine.go:743-921 | one call of a batch is refused, suspended on, cancelled, delivered or recorded as the machine's matching step |
| EngineLoop.Engine.PutRequest | server/agent/engine.go:615-635 | the request carries the history after compaction and before the new user turn, which then enters it |
| EngineLoop.Engine.RunBatch | server/agent/engine.go:743-935 | the loop over a batch takes exactly the steps of `BatchPath`: one per call, up to the end of the batch or of the run |
| EngineLoop.Engine.TakeReply | server/agent/engine.go:651-941 | a reply is taken as `RunMeaning.ReplyTaken` says in terms of history, log and question: draft, leaked markup refused at most twice, final answer, refused batch, or one call after the other |
| EngineLoop.Engine.Loop | server/agent/engine.go:598-945 | for every script of replies the main loop does turn by turn what `RunMeaning.RunTaken` says, along legal steps of the machine, and leaves the history paired but for an open question |
| EngineLoop.Engine.StartRun | server/agent/engine.go:536-945 | a run on a user message is logged under a new run and does what its script says; with a final answer history and log end in it; every request it sent is paired |
| EngineLoop.Engine.ResumeRun | server/handler/chat.go:355-376 | an answer is logged first, then taken or refused, also with the question open; a taken one becomes the ask's result and the run does what its script says; a refused one changes nothing else |
| EngineLoop.Engine.RehydrateHistory | server/handler/session_runtime.go:48-90 | a restart sets history, omitted count and digest to what the log rebuilds to |
| RunMeaning.ReplyMeans | server/agent/engine.go:651-941 | the steps of a reply change conversation, log and waiting question exactly as `ReplyTaken` says, for every reply and every number of refusals before it |
| RunMeaning.RunMeans | server/agent/engine.go:598-945 | and those of a whole run, turn by turn: request after compaction, reply, and the deferred repair |
| RunMeaning.RequestMeans | server/agent/engine.go:615-635 | a request carries the compacted history, logs the checkpoint, and only then takes up the user turn |
| RunMeaning.FinalAnswerStands | server/agent/engine.go:695-725 | a run that comes to a final text ends with the history ending in it and the log in its completion |
| RunMeaning.QuestionStaysOpen | server/agent/engine.go:836-843 | a run that comes to a question ends with the history ending in it, logged, and the run waiting for its answer |
| RunMeaning.ReturnedIsKept | server/agent/engine.go:846-921 | every call that returned before its batch ended has its own result at its own place in the history, and its two events next to each other in the log, in call order |
| RunMeaning.ReturnedIsLogged | server/agent/engine.go:846-921 | over a whole run every such call of every turn it comes to is in the log next to its result |
| ForeignResults.RequestsExact | server/agent/engine.go:598-945 | in every session whose restarts find an exact conversation in the log, every main-loop request holds only results of the turn they follow |
| ForeignResults.StepExact | server/agent/engine.go:547-945 | every step but a restart keeps that, from any state |
| ForeignResults.BadSuspensionExact | server/agent/engine.go:798-834 | a suspension refused for its arguments leaves the rebuilt conversation exact if and only if it was and the folded items end in a turn without calls or with a call of the same id |
| ForeignResults.ForeignResultRebuilt | server/agent/history_rebuild.go:98-105 | a run that shows it: after a completed call a text-less refused suspension is rebuilt as a result of the earlier turn, and after a restart a request is sent with it |
| ForeignResults.ExactSnoc | server/agent/history_rebuild.go:243-248 | a result appended keeps a conversation exact if and only if it answers a call of the last turn or that turn has none |
| Simulation.ReplayRefinesEngine | server/agent/history_rebuild.go:33-200 | after every faithful session, with any number of compactions, suspensions, resumes and restarts, the rebuilt and the live conversation are the same once repaired, and omitted count and digest are equal |
| Simulation.StepTracks | server/agent/engine.go:598-945 | every faithful step keeps the log's fold and the live state in the simulation relation |
| Simulation.RequestTracks | server/agent/history_rebuild.go:166-200 | a checkpoint cuts the fold where it cut the engine, provided nothing before the cut was synthesized by repair |
| Simulation.RehydrateTracks | server/agent/history_rebuild.go:33-51 | taking the rebuilt history over at a restart keeps the relation, in every phase |
| Divergence.ExcludedStepsDiverge | server/agent/engine.go:598-945 | from every tracked state each excluded step that settles at once leaves a log that rebuilds to another conversation |
| Divergence.StopBeforeRequestDiverges | server/agent/engine.go:598-631 | a run stopped before its first request loses the user turn the log holds |
| Divergence.CancelAfterToolDiverges | server/agent/engine.go:890-906 | a result logged just before the cancellation is seen exists in the log only |
| Divergence.BadBatchDiverges | server/agent/engine.go:655-731 | a refused batch leaves its text in the log only |
| Divergence.BlankTextDiverges | server/agent/history_rebuild.go:134-138 | blank text is kept live and dropped by the fold |
| Divergence.RefusedAnswerDiverges | server/handler/chat.go:355-376 | an answer that was refused counts as the answer in the fold |
| Divergence.LongRefusalDiverges | server/agent/engine.go:1288-1305 | a refusal too long for the history is kept whole live and cut by the fold |
| Divergence.BadSuspensionDiverges | server/agent/engine.go:806-834 | invalid suspension arguments log a result whose call the log never holds |
| Divergence.MiscountDiverges | server/agent/history_rebuild.go:176-189 | a checkpoint whose dropped part held a synthesized result always makes the fold cut elsewhere |
| Divergence.WholeBatchDiverges | server/agent/history_rebuild.go:95-105 | in every state any session can reach, a live history that holds a turn of several calls is not what its log rebuilds to |
| Divergence.RunSingles | server/agent/history_rebuild.go:69-222 | over every run of steps the folded turns hold at most one call each, and none is left pending |
| Divergence.MergedDraftDiverges | server/agent/history_rebuild.go:91-96 | a pending draft swallows the text-less call that follows it |
| Conservation.ReplayConservesContent | server/agent/history_rebuild.go:69-234 | for batches of any size without compaction, with restarts at any step and runs started over open questions, rebuilt and live conversation hold, once repaired, the same texts, calls and results in order; as they stand, if every call was answered |
| Conservation.StepConserves | server/agent/engine.go:598-945 | every settled step keeps that balance, in every phase, the calls still to be settled accounted for |
| Conservation.RebuildRests | server/agent/history_rebuild.go:45-50 | at rest, if every call was answered, there is nothing for the rebuild to repair, and the content is equal as it stands |
| Conservation.RehydrateConserves | server/handler/session_runtime.go:48-90 | a restart at any step, mid-batch and mid-request included, keeps the balance |
| Conservation.AskGivenUp | server/agent/engine.go:404-409 | a question given up gets the same synthesized result on both sides |
| EngineReplay.ReplayAgrees | server/agent/history_rebuild.go:33-51 | an engine object at rest that only took faithful steps is what its log rebuilds to |
| EngineReplay.ReplayConserves | server/agent/history_rebuild.go:33-51 | an engine object at rest that only took settled steps finds all its content in its log, once both are repaired |
| SparseHistory.RepairTwice | server/agent/history_rebuild.go:269-282 | with one call per turn, repairing around the open question and again later is repairing at once |
| SparseHistory.RecordedPrefix | server/agent/history_rebuild.go:176-189 | a repaired prefix without synthesized results stands unchanged at the front of what was repaired |
| Scheduler.PlanToolCalls | server/agent/parallel_tools.go:64-122 | one decision per call in the model's order; of several objections to an approved call the unavailable tool is reported, then the repeated failure, then the arguments |
| Scheduler.StartParallelRun | server/agent/parallel_tools.go:140-161 | starts exactly the calls of the maximal parallel-safe run whose ids are not started yet, the first of each id, and changes nothing else |
| Scheduler.StartsAhead | server/agent/parallel_tools.go:136-161 | while the loop waits for a parallel-safe call, each call of the maximal safe run from there has an execution under its id, and none behind that run has one |
| Scheduler.CanOverlap | server/agent/parallel_tools.go:149-158 | from every state not cancelled some run has all started executions in the tool at once, or as many as the budget allows |
| Scheduler.RunsOnce | server/agent/parallel_tools.go:136-170 | in every interleaving of any batch a call is run at most once, an idempotent one at most four times, a denied or suspending one never |
| Scheduler.SharedIdRunsOnce | server/agent/parallel_tools.go:143-170 | a passed call was run itself if and only if no parallel-safe call before it has its id; it got the last attempt of the execution that serves it, its own or that of the first such call |
| Scheduler.ConsumedInOrder | server/agent/engine.go:743-862 | results are consumed in the model's order without gaps, unrun calls answered at their own place |
| Scheduler.Barrier | server/agent/parallel_tools.go:136-161 | a call that is not parallel-safe starts only after all earlier ones are passed and done, nothing later starts before it is passed, and it overlaps with none |
| Scheduler.WithinBudget | server/agent/parallel_tools.go:149-156 | at most the budget of calls is in a tool at once, or one exclusive call alone |
| Scheduler.NeverStuck | server/agent/parallel_tools.go:131-170 | with a positive budget a step that ends nothing is always possible until the batch is over, unless it was cancelled |
| Scheduler.Advances | server/agent/parallel_tools.go:131-170 | every step lowers a natural measure |
| Scheduler.RunsAreBounded | server/agent/parallel_tools.go:131-170 | no interleaving is longer than seventeen steps a call, and three |
| Scheduler.CanComplete | server/agent/engine.go:743-935 | from every reachable state that is neither stopped nor cancelled some run passes all calls |
| Scheduler.EndsShort | server/agent/engine.go:743-935 | when a batch is over, calls were left if and only if a cancellation was noticed, a call suspended or failed the run, or one before the last delivered |
| Scheduler.AfterCancel | server/agent/engine.go:214-240 | after a cancellation no result is passed on and no idempotent call is tried again |
| Scheduler.RetryableToolExec | server/agent/engine.go:214-240 | a non-idempotent tool is executed exactly once; an idempotent one at most four times, stopping at the first verdict that is not transient or at a cancellation |
| Scheduler.FailingRuns | server/agent/engine.go:214-240 | after n transient failures the next attempt decides: up to three retries, none after a verdict that is not transient or a cancellation |
| Scheduler.JobsRetry | server/agent/engine.go:214-240 | whatever an execution of an idempotent call ends with, in any interleaving, the retry loop gives by itself under some script |
| Scheduler.RetriesAreRuns | server/agent/engine.go:214-240 | the retry loop's course under any script is one of the batch's interleavings |
| PersistQueue.SavedExactlyOnce | server/handler/runtime_events.go:463-490 | in every interleaving each submission is written at most once and, once its submitter is back, exactly once, by queue or fallback; a queued one gets exactly one reply, after a panic too, and the answer is what came of that write |
| PersistQueue.ShutdownDrains | server/handler/runtime_events.go:91-121 | once the worker has exited the queue is empty, nobody waits without a reply and nobody can queue again |
| PersistQueue.SavesInOrder | server/handler/runtime_events.go:98-110 | queued events are written in the order they were queued, all of them by the time the worker exits |
| PersistQueue.NeverStuck | server/handler/runtime_events.go:91-121 | while somebody waits or the shutdown is not through, a step other than a context's end is possible |
| PersistQueue.Advances | server/handler/runtime_events.go:66-121 | every step lowers a measure |
| PersistQueue.Queue.Stop | server/handler/runtime_events.go:98-120 | the shutdown is a legal path of the machine from its stop to its exit; the drain loop writes what is left in order |
| PersistQueue.Queue.Submit | server/handler/runtime_events.go:463-490 | a submission takes exactly the machine's steps: entered and pushed, or entered and saved by itself, with or without a queue |
| PersistQueue.Queue.RunPersistJob | server/handler/runtime_events.go:66-75 | one write and exactly one reply per job, the machine's save step, for a write accepted, rejected or recovered from a panic |
| PersistQueue.Queue.OnEveryPath | server/handler/runtime_events.go:66-121 | what is proved of all runs holds of the queue object: each job written at most once, queued ones in order |
| EventStream.DeliveredAtMostOnce | server/handler/sse.go:201-215 | on one connection no event is written twice, whatever overflows or closes |
| EventStream.DeliveredExactlyOnce | server/handler/sse.go:141-263 | without overflow every event after a known cursor, or saved after the registration, is written exactly once, wherever registration, log read and broadcasts fell |
| EventStream.OnlyAfterCursor | server/handler/sse.go:217-258 | in every run an event at or before a known cursor, and any event without one, is written only if it was taken live |
| EventStream.DeliveredInOrder | server/handler/sse.go:165-258 | what is written is the replay from right after the cursor, then what was taken live and is not in it, each in order |
| EventStream.TakenWithoutGaps | server/handler/sse.go:83-100 | what a handler takes is a gap-free prefix of the broadcasts if and only if nothing was lost to it or it took, after the first drop, no more than the channel holds |
| EventStream.UnseenLeavesNoGap | server/handler/sse.go:83-100 | a handler that takes nothing between a drop and its flag sees no gap, unless its session is closed |
| EventStream.AtomicDropsUnseen | server/handler/sse.go:96-97 | were the drop and the flag one step, that would hold of every run |
| EventStream.TornDropSkips | server/handler/sse.go:96-97 | for every channel size a run with one emitter delivers all events but the dropped one |
| EventStream.SessionReplayMessages | server/handler/sse.go:265-275 | returns what follows the first message with the cursor's id, or reports the cursor as unknown |
| EventStream.ReadLogReplays | server/handler/sse.go:217-275 | the range the stream replays is exactly what that scan returns on the log that was read |
| EventStream.Broker.Register | server/handler/sse.go:42-57 | adds one fresh client to its session and touches no other |
| EventStream.Broker.Unregister | server/handler/sse.go:59-72 | removes and closes a client once; an unregistered one is left alone |
| EventStream.Broker.CloseSession | server/handler/sse.go:74-81 | closes and forgets every client of the session |
| EventStream.Broker.Broadcast | server/handler/sse.go:83-100 | each client of the session gets the message or, when full, one more drop and the flag |
| Slices.AtomicBoundary | server/render/layout.go:110-122 | the scan finds the earliest start of an element that crosses the cut |
| Slices.PlanBlockCuts | server/render/layout.go:83-105 | the cursor loop computes `Cuts` and terminates |
| Slices.CutIsExactly | server/render/layout.go:90-98 | a part ends at the maximum unless elements cross there, else 2 px above the one that starts first if that leaves more than 320 |
| Slices.EachCutIsExact | server/render/layout.go:83-105 | every part but the last is cut so, as long as more than the maximum is left, and the last takes the rest |
| Slices.CutsTile | server/render/layout.go:83-105 | for every block and positive maximum the cuts tile it: contiguous, non-empty, bounded, every one but the last equal to the maximum or above 320 |
| Slices.EachRowInOnePart | server/render/layout.go:83-105 | every row of a block lies in exactly one part |
| Slices.CutCrossesOnlyForced | server/render/layout.go:88-94 | with elements nested or 2 px apart, a cut crosses one if and only if it is a forced hard cut |
| Slices.InnerCutsAvoid | server/render/layout.go:83-105 | the same for every inner cut of every block |
| Slices.CloseElementsAreCrossed | server/render/layout.go:89-94 | with elements 1 px apart a cut that nothing forces crosses one |
| Slices.Itoa | server/render/layout.go:128-141 | filling the buffer backwards and reversing it in place prints the decimal |
| Slices.DecimalReads | server/render/layout.go:128-141 | the printed decimal reads back as its number, so printing is injective |
| Slices.LabelsDistinct | server/render/layout.go:124-126 | the part labels within a block are distinct |
| Slices.LabelTells | server/render/layout.go:124-140 | a label reads as the part's number counted from one and the number of parts |
| Slices.PlanSlices | server/render/layout.go:55-76 | the plan of a page is the labelled cuts of its visible blocks in order |
| Slices.PlanByBlock | server/render/layout.go:55-76 | behind the slices of earlier blocks stand the parts of the next visible block, under its id, labelled, each at its own rows inside it and right below the one before; nothing for an invisible one |
| Slices.PlanConservesHeight | server/render/layout.go:55-76 | the planned slices add up to the height of the visible blocks |
| SqlScan.HasMultipleStatements | server/data/schema.go:360-427 | the flag-driven byte loop computes `Multiple` |
| SqlScan.StripSQLStringsAndComments | server/data/schema.go:429-501 | the second flag-driven byte loop computes `Strip` |
| SqlScan.ScannersAgree | server/data/schema.go:360-501 | a query has multiple statements if and only if its stripped form contains a semicolon |
| SqlScan.StripIsClean | server/data/schema.go:429-501 | stripped text has no quotes and no comment openers |
| SqlScan.StripIdempotent | server/data/schema.go:429-501 | stripping twice is stripping once |
| SqlScan.QuoteRoundTrip | server/data/ingester.go:565-573 | unquoting a quoted identifier gives the name back, for every non-empty NUL-free name |
| SqlScan.QuoteRefuses | server/data/ingester.go:565-573 | a name is refused if and only if it is empty or holds a NUL |
| SqlScan.BacktickRoundTrip | server/data/schema.go:508-519 | back-quoted names are unquoted the same way, and an unquoted trimmed part is left alone |
| SqlScan.UndoubledDoubled | server/data/schema.go:508-519 | undoubling a doubled name gives it back |
| SqlScan.QuoteIsOpaque | server/data/schema.go:390-398 | the scanner enters a quoted identifier and is back to normal exactly at its end, with nothing of it seen as text |
| SqlScan.StringIsOpaque | server/data/schema.go:381-389 | a string constant with its quotes doubled is not seen, ends in normal text, and keeps the verdict of what follows, whatever it holds |
| SqlScan.LineCommentIsOpaque | server/data/schema.go:369-374 | a line comment is not seen up to its line break and what follows is scanned as by itself; without a break it never ends |
| SqlScan.BlockCommentIsOpaque | server/data/schema.go:375-380 | the same for a block comment up to its first closer |
| SqlScan.EmbeddingKeepsVerdict | server/data/schema.go:360-427 | a quoted identifier put where the scanner is in normal text never changes the verdict of the text around it, whatever follows |
| SqlScan.EmbeddingElsewhere | server/data/schema.go:369-427 | in a comment or a string some quotable name changes the verdict |
| SqlScan.EmbeddingSafeExactly | server/data/schema.go:360-427 | a text is a safe place for every quotable name and whatever follows if and only if it ends in normal text or already holds several statements |
| Strings.FirstFieldIs | server/data/schema.go:346-349 | the first field is the word that stands after leading space and ends at a space or with the text |
| Strings.TrimTakes | server/data/schema.go:334-339 | trimming takes space off both ends, and all of it |
| SqlScan.NormalizeReadOnlyQuery | server/data/schema.go:333-352 | a query is admitted unchanged if and only if it is trimmed, non-empty, free of semicolons once stripped, and then begins with the word SELECT or WITH |
| Goals.SubgoalManager.AddGoalWithBlocking | server/agent/memory.go:187-224 | a goal is added exactly when limit, description and parent allow it, and the plan stays a forest |
| Goals.SubgoalManager.UpdateGoalStatus | server/agent/memory.go:227-242 | only the named goal changes; the plan stays a forest |
| Goals.SubgoalManager.ReplaceAll | server/agent/memory.go:352-401 | a persisted plan is restored if and only if it is a bounded list of well-formed goals that form a forest; otherwise nothing changes |
| Goals.WalkUp | server/agent/memory.go:387-395 | the parent walk with its seen set ends at a root, or shows that the goals are no forest |
| Goals.CheckParents | server/agent/memory.go:382-396 | the second pass accepts exactly the forests |
| Goals.IndexGoals | server/agent/memory.go:356-381 | the first pass accepts exactly the lists of well-formed goals with unique ids |
| Goals.AddKeepsForest | server/agent/memory.go:187-224 | a new goal under an existing parent leaves unique ids, existing parents and no cycles |
| Goals.UpdateKeepsForest | server/agent/memory.go:227-242 | changing statuses and results leaves a forest |
| Goals.ForestIsBounded | server/agent/memory.go:282-319 | in a forest every walk up ends within as many steps as there are ids, which bounds the depth-first search |
| Goals.Snapshot | server/agent/memory.go:259-279 | roots and children by parent, each in list order |
| Goals.CollectFrom | server/agent/memory.go:288-311 | the recursive search terminates and appends exactly the branches below its path |
| Goals.BlockersExact | server/agent/memory.go:282-319 | the blockers are exactly the open paths from an open blocking root that no open goal continues |
| Goals.NoBlockersMeans | server/agent/memory.go:322-333 | there is no blocker if and only if every blocking root is terminal |
| Goals.SubgoalManager.CanFinalize | server/agent/memory.go:322-333 | the run may finish if and only if every blocking root is terminal, and the blockers listed are exactly those paths |
| Receipts.ReceiptStore.ProvideAskUserResult | server/agent/engine.go:1136-1248 | an answer is taken exactly when actor, single open ask, exact decision and payload allow it; an approval issues one receipt for the request's action, resource and canonical payload |
| Receipts.AnswerExactly | server/agent/engine.go:1136-1203 | which answers are taken and which approve, spelled out on actor, ask, decision and payload |
| Receipts.ApprovalCanBeCommitted | server/agent/engine.go:1203-1224 | after an approval, whatever else is done, the change it names can be committed under its receipt if and only if its time is not up, as long as it was not |
| Receipts.ReceiptStore.PurgeExpiredReceipts | server/agent/engine.go:1311-1317 | exactly the expired receipts are dropped |
| Receipts.ReceiptStore.VerifyApproval | server/agent/engine.go:1322-1356 | accepts exactly an unused, unexpired receipt for this action, resource and canonical payload; an expired one is dropped |
| Receipts.ReceiptStore.CommitWithConfirmationReceipt | server/agent/engine.go:1360-1399 | the callback runs exactly when the receipt authorizes the change, and only its success uses the receipt up |
| Receipts.OneResultPerAsk | server/agent/engine.go:1136-1248 | over every run each ask gets at most one result and at most one receipt |
| Receipts.OneCommitPerReceipt | server/agent/engine.go:1360-1399 | over every run each receipt backs at most one successful commit, for the action, resource and canonical payload it names, before expiry |
| Receipts.CommitsWereApproved | server/agent/engine.go:1360-1446 | behind every successful commit of every run stands one answer that approved exactly this action and resource, for a request with the same canonical payload |
| Receipts.FailedCommitLeavesUsable | server/agent/engine.go:1358-1398 | a failed commit changes nothing and the same commit can still succeed |
| Receipts.UsedStaysUsed | server/agent/engine.go:1373-1375 | a used receipt authorizes nothing ever after |
| Jobs.JobManager.Submit | server/agent/jobs.go:95-127 | a job enters the table exactly when tool, arguments and registry allow it; then the table is within 32 or everything in it is running |
| Jobs.SubmitEnters | server/agent/jobs.go:113-123 | a submitted job stands in the table at once, running under its tool |
| Jobs.JobManager.Finish | server/agent/jobs.go:157-175 | the running job ends, once, and is put down for one notice |
| Jobs.FinishedAs | server/agent/jobs.go:157-175 | a job ends failed with its error or succeeded, as its execution did, with the result's handle and size, and keeps that end while it stands in the table |
| Jobs.JobManager.TakeCompletedNotices | server/agent/jobs.go:182-223 | one notice per finished job since the last call that is still in the table |
| Jobs.KnownInOrder | server/agent/jobs.go:199-205 | the notices follow the order in which the jobs finished |
| Jobs.JobManager.EvictOne | server/agent/jobs.go:243-257 | drops the oldest job that is not running, if any |
| Jobs.JobManager.Evicting | server/agent/jobs.go:241-264 | the eviction loop computes `Evict` |
| Jobs.EvictionKeeps | server/agent/jobs.go:238-264 | order and map keep the same ids, no running job is evicted, and the result is within 32 or all running |
| Jobs.EvictsOldestFirst | server/agent/jobs.go:238-264 | a finished job stays only if every evicted one was submitted before it |
| Jobs.EvictsOnlyOverBound | server/agent/jobs.go:241-242 | eviction never takes a table below its bound |
| Jobs.StatusMovesOnce | server/agent/jobs.go:157-175 | a status moves once, from running to an end, and an ended job never changes |
| Jobs.AtMostOneNotice | server/agent/jobs.go:177-223 | over the whole life of the table each finished job is told of at most once, and no other ever |
| Jobs.NextTakeTells | server/agent/jobs.go:182-223 | the next take tells of every finished job still in the table, so exactly once |
| Paging.SpillStore.ReadSpilledToolResult | server/agent/spill.go:64-87 | the clamped window of the stored payload, with its total; errors exactly for a malformed or unknown id or a negative offset |
| Paging.SpillStore.InspectToolResult | server/agent/state_tools.go:74-98 | the tool's page with its has-more flag |
| Paging.PageHolds | server/agent/spill.go:64-87 | a page holds as many runes as asked for within 1 to 6000, 6000 for a limit out of range, or what is left; and says there is more if and only if there is |
| Paging.SpillStore.ReadWhole | server/agent/state_tools.go:74-98 | paging from offset 0 by the runes returned until there is no more terminates and gives the exact payload, for any limits |
| Paging.PagingReadsAll | server/agent/state_tools.go:74-98 | the same from any offset: exactly the rest of the payload |
| Paging.DefaultReads | server/agent/spill.go:77-79 | with default limits it takes one read per 6000 runes begun |
| Paging.ValidSpillID | server/agent/spill.go:92-102 | an id is valid exactly when it is 32 lower-case hex digits, so it holds no path separator |
| Paging.SpillStore.SpillToolResult | server/agent/spill.go:39-61 | a result is stored under its digest exactly when it fits and the disk takes it or already has it; its id reads it back if and only if no other content stood there |
| Paging.SpillStore.PruneToolResultForHistory | server/agent/compaction.go:269-306 | an oversized result is pruned, and the id it names reads back the whole if and only if no other content stood under it |
| Paging.SpillAndReadAll | server/agent/spill.go:39-87 | results whose digests differ are spilled one after the other and each read back whole, for any limits of the reads |
| Paging.PruneAccounts | server/agent/compaction.go:281-291 | head, omitted count and tail account for every rune of the original, as its ends |

## Left out

- LLM providers, HTTP handling, authentication, configuration, metrics and logging.
- JSON decoding and its errors: events, arguments and answers come decoded. An event that cannot be decoded makes a rebuild fail.
- The stable sort by creation time in front of the fold: events come in creation order.
- Blank call ids and the fallback ids made from message ids.
- Runtime facts that ride a request beside the history (report view, job notices, continuation facts, window counts).
- When compaction is triggered: context pressure is an input. `EngineLoop.Engine.PrepareRequestBundle` discards nothing, since
  the first bundle the source builds and throws away has no effect on the conversation.
- Wall-clock timeouts and calls that outlive them: a timeout is a failed result.
- The patterns of the raw-markup guard: a boolean of the reply, with its bound of two rejections in `EngineLoop.Engine.TakeText`.
- Report rendering, the Python sandbox, charts, repositories and migrations; child agents beyond their trimming.
- Working memory, the slice cache, login and token tables.
- Events of child runs in the stream, and replayed messages that cannot be encoded: the read of the log is complete and in order.
- Simulation.RequestTracks: requires that nothing before the cut was synthesized, because the code cuts elsewhere otherwise
  (`Divergence.MiscountDiverges`).
- Conservation.ReplayConservesContent: sessions with a compaction are not covered, because a checkpoint counts items and the fold of a
  batch has more of them; nor are batches left before their last call, whose other calls the log never holds, and the single
  steps that `Divergence.dfy` shows to part log and engine (`Conservation.Settled` lists them).
- ForeignResults.RequestsExact: what a restart finds in the log is a condition on the restart, because the fold can make a foreign
  result (`ForeignResults.ForeignResultRebuilt`).
- Scheduler.RunsOnce: a call that was started ahead and then cancelled, or left behind by an ended run, may have run without its
  result being consumed.
- Goals.CollectFrom: branches are lists of goals; the text rendered from each is not modelled.
- Goals.SubgoalManager.ReplaceAll: time stamps are one flag.
- SqlScan.NormalizeReadOnlyQuery: how `strings.ToUpper` maps a single character is a parameter.
- Slices.PlanSlices: widths, scaling and the capture itself are not modelled.
