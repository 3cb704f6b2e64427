# Verified model of the agent runtime

A Dafny model of the parts of the runtime whose correctness spans many calls or
many interleavings, with proofs about it. `dafny verify dfyconfig.toml` checks
the whole project.

| module | models |
|---|---|
| TokenFilter, TokenBatch, TokenPieces | the streaming and the batch removal of thinking blocks and end-of-sequence tokens |
| Glob | the compiler from globs to regular expressions |
| DangerTier | the tier of a channel, a walk over a possibly cyclic declaration graph |
| PipelineGraph, TaskQueue, Freshness, Orchestrator, Pipeline, PipelineSteps | the dependency graph, the task queue and the dispatcher: what is fresh after any interleaving of batches, failures and resets |
| PipelineDraining, Sums | why the queue drains on acyclic graphs |
| PriorityLock | the condition-variable lock of the database |
| Sessions | sessions, users and conversation ownership |
| TurnLoop, TurnEnds, MessageQueue, ModelEscorts | one drive of the agent's turn, messages that arrive meanwhile, and the escorts around a model call |
| TurnEffects, TurnJournal | a turn's writes, their undo log, and what a rollback brings back |
| JobDefinitions, JobTable, JobTicks, OneTimeJobs, JobStore | scheduled jobs: definitions, the table and its undo, the timekeeper's passes |
| PluginHealth, PluginStrikes | the sliding-window circuit breaker |
| Basics, Paths | small value types, text helpers, walks in a graph |

Classes carry the fields the source updates in place. Where the state matters over
many calls, a function says what each step makes of it (`Next`, `After`, `Driven`,
`Stepped`, `Changed`), the methods are proved to do exactly that, and the results
are lemmas about those functions over all series of steps. Outside answers (model
replies, hook verdicts, task outcomes, clocks, gate decisions) are parameters or
arbitrary functions of a question's number, so a property holds for all of them.
A step that cannot be taken leaves the state alone.

## What turned out otherwise than documented

- A glob ending in a `**` segment compiles to an expression that matches no
  listed path; the docstring at sandbox_kit.py:38-44 promises a subtree
  (`Glob.TrailingDirsMatchNothing`).
- An extracted thought keeps its opening tag when whitespace stands before it,
  a line break between two blocks included (runtime/token_stripper.py:16-19, 133;
  `TokenBatch.OpenerIsKept`, `ExtractedExactly`).
- `_HIGH_PRIORITY` is defined as 100 at pipeline/database.py:18 and rebound to 0
  at line 70, so attachments are not claimed first, but by age like any file
  (`TaskQueue.AttachmentWaitsItsTurn`, `AttachmentAheadExactly`).
- Claimed rows whose inputs are missing go back to the place they had, so enough of
  them at the head of a queue keep ready rows behind them waiting for ever
  (pipeline/orchestrator.py:709-733; `PipelineDraining.ReadyRowBehindAWaitingOne`).
- A naive `run_at` is stored with the zone of the moment of entry, so a second
  normalization may rewrite it (runtime/scheduling.py:67-73); the instant stays
  (`JobDefinitions.NaiveMomentIsRewritten`, `NormalizeIdempotentExactly`).
- `capture(None)` (runtime/scheduling.py:321-328) does not cover names created
  afterwards, although its docstring names a create as its use
  (`JobTable.LaterJobStays`, `PutBackAllExactly`).
- `create_job` enters the job before it asks for its fire time
  (runtime/scheduling.py:251-252): a cron that is accepted but never fires stays
  in one table only, no undo is recorded for it, and from then on no job fires
  (`JobTable.NeverFiringJobIsStranded`, `TurnEffects.StrandedJobStays`,
  `JobTicks.StrandedBlocksEveryTick`).
- When the schedule of a due job comes to an end, moving on raises there
  (runtime/scheduling.py:302-314): that job and every job behind it in the pass stay
  on their times and fire for them again at each pass, one-time jobs among them
  (`JobTicks.LastFireRepeats`, `DailyJobBehindAnEndedOne`, `TickMovesExactly`,
  `FiresInTurnExactly`).
- Rolling back a turn cannot bring back a deleted file whose path has become a
  directory, and a row that an insert replaced is gone for good
  (effects/interpreter.py:655-679, pipeline/database.py:841-853;
  `TurnEffects.FileBecomesDirectory`, `ReplacedRowIsLost`).
- A database write that raises part-way leaves the rows before the bad one in the
  open transaction and records no undo step, so they outlive the rollback
  (pipeline/database.py:841-853, effects/interpreter.py:435, 655-662;
  `TurnEffects.HalfWrittenRowStays`, `RowsBackExactly`).
- Switching conversation closes and reopens the session, which leaves no session
  active until the next action, and the switch is not remembered for a restart until
  then (runtime/persistence.py:215-221, 374-386, runtime/conversation_runtime.py:254-260;
  `Sessions.SwitchingLeavesNoneActive`).
- A text sent between turns while queued messages are still pending is recorded
  ahead of them (runtime/conversation_runtime.py:186-192, 238-249;
  `MessageQueue.ThirdOvertakesSecond`).
- The breaker's class, if one plugin's strikes differed in eligibility, could trip at
  more than three (runtime/supervisor.py:104-106;
  `PluginHealth.MixedStrikesTripAtFour`). Its callers derive eligibility from the
  plugin's path (agent/tool_registry.py:165, pipeline/orchestrator.py:808, 900), so
  in the runtime it trips at exactly three (`PluginHealth.TripsAtThirdExactly`).

## Model

| member | source | states |
|---|---|---|
| TokenFilter.FilterStream | runtime/token_stripper.py:80-120 | for every text and every way of cutting it, the pieces that feeding the fragments and flushing return make up the display of the whole text; after every fragment those returned so far are the beginning of the display of the text so far, and what they lack of it begins a tag and is at most ten characters long |
| TokenFilter.VisibleWithoutTags | runtime/token_stripper.py:80-110 | the reference reading: text without tags is shown unchanged outside a thinking block and hidden inside one |
| TokenFilter.StreamingTokenFilter.Feed | runtime/token_stripper.py:80-110 | keeps the filter explained: everything released so far plus what the withheld tail can still become is the meaning of everything fed |
| TokenFilter.StreamingTokenFilter.Flush | runtime/token_stripper.py:112-120 | with this last piece exactly the display of everything fed has been returned |
| TokenFilter.StreamingTokenFilter.NeverRetracted | runtime/token_stripper.py:80-110 | at any moment and whatever follows, what was returned is a prefix of the final display and lags the display so far by nothing but the beginning of a tag |
| TokenFilter.StreamingTokenFilter.FindFirst | runtime/token_stripper.py:61-68 | the leftmost occurrence of any of the tags, or none if no tag occurs anywhere |
| TokenFilter.StreamingTokenFilter.PartialTagTail | runtime/token_stripper.py:71-78 | the longest suffix, shorter than the longest tag, that begins some tag |
| TokenFilter.ModelTagsSeparated | runtime/token_stripper.py:51-54 | the six tags hold `<` at their start only and none is a prefix of another, so they never overlap |
| TokenFilter.ConsumeTag | runtime/token_stripper.py:85-104 | a round that finds a tag is right for every continuation of the text, because a tag found leftmost stays leftmost |
| TokenFilter.Withhold | runtime/token_stripper.py:85-104 | a round that finds none is right for every continuation once the longest partial tag is kept back |
| TokenFilter.SkipPlain | runtime/token_stripper.py:80-110 | a stretch in which no tag starts is shown, or hidden, as one piece |
| TokenBatch.ModelTagsTwoSided | runtime/token_stripper.py:51-54 | the six tags meet what the results about whole responses ask of a tag set |
| TokenBatch.ThinkMatchEndsAtFirstCloser | runtime/token_stripper.py:14-19 | the thinking pattern with its optional opener matches exactly up to the end of the first closer |
| TokenBatch.DropThinkingKeepsTheRest | runtime/token_stripper.py:135-136 | removing thinking blocks from a whole response keeps exactly the text after the last closing tag |
| TokenBatch.StreamAgreesWithBatch | runtime/token_stripper.py:80-144 | for leading thinking blocks and then a plain answer, the streamed display, right-trimmed, is the batch result, and both are the trimmed answer |
| TokenBatch.UnopenedThoughtIsShown | runtime/token_stripper.py:43-48 | a thought whose opener was omitted is shown by the stream and dropped by the batch; the two agree if and only if it is blank |
| TokenPieces.StructureIsRemoved | runtime/token_stripper.py:121-144 | for any leading thinking blocks and then any number, in any order, of stretches of text, literal end-of-turn and tool-call tokens, `invoke` and `tool_call` blocks and leftover openers, the clean text is the stretches of text and nothing else, trimmed |
| TokenPieces.SimpleStructureIsRemoved | runtime/token_stripper.py:21-32 | the same without a condition on closers, when no `<` stands inside the blocks |
| TokenPieces.UnclosedCallIsKept | runtime/token_stripper.py:21-32 | after any such pieces a tool call that is never closed stays as it stands |
| TokenPieces.StreamAgreesOnTokens | runtime/token_stripper.py:80-144 | with end-of-turn tokens anywhere in the answer the finished stream, right-trimmed, is the clean text |
| TokenBatch.ThoughtsOfResponse | runtime/token_stripper.py:132-133 | the extracted thoughts of such a response are one for each block in order: the trimmed body if nothing stands before the opener, else the opener is taken for part of the thought |
| TokenBatch.ExtractedExactly | runtime/token_stripper.py:14-19 | the extracted thoughts are what was thought if and only if nothing, not even whitespace, stands before any of the openers |
| TokenBatch.OpenerIsKept | runtime/token_stripper.py:14-19 | concrete case: after a line break the thought of `<think>a</think>` comes out as `<think>a` |
| Glob.CompileGlob | sandbox_kit.py:37-63 | the loops produce the expression `Compiled` of the segments |
| Glob.CompiledMeansGlob | sandbox_kit.py:37-63 | for every list of segments and every listed path, the expression matches if and only if the last segment is not `**` and the path matches the glob segment by segment |
| Glob.PatternMeansGlob | sandbox_kit.py:37-63 | the same from the pattern text, with backslashes and empty segments treated as the code does |
| Glob.SegmentsAreParts | sandbox_kit.py:37-46 | whatever separators of either kind stand between parts, doubled ones included, the segments are the parts that are not empty |
| Glob.TrailingDirsMatchNothing | sandbox_kit.py:47-63 | concrete failure: `src` then `**` means everything below `src`, and the expression does not match `src/a` |
| Glob.BodyMeansGlob | sandbox_kit.py:47-60 | before the last separator is dropped the expression matches exactly the slash-ended paths the glob matches |
| Glob.DirsAgainst | sandbox_kit.py:48-50 | a `**` part takes any number of whole components and nothing else |
| Glob.SegmentAgainst | sandbox_kit.py:51-59 | any other part matches one whole component, `*` and `?` never crossing a separator |
| Glob.FinalSlash | sandbox_kit.py:61-62 | dropping the final separator from the expression is dropping it from the path |
| DangerTier.ChannelDangerTier | runtime/service_ticker.py:64-106 | called at the root, on any cyclic declarations: the tier is egress if some task reachable through trigger and declared channels is, else write if some is, else read; a tier outside the vocabulary counts as read |
| DangerTier.ChannelWalk.Visit | runtime/service_ticker.py:89-106 | with the visited set shared across branches, a call returns exactly the worst tier over the channels it is the first to visit, and leaves those closed |
| DangerTier.WorstIsMaximum | runtime/service_ticker.py:64-77 | the reference tier of a set of channels is a maximum over all listeners |
| Orchestrator.Graph.BuildGraph | pipeline/orchestrator.py:216-257 | the upstream of each task, path and event tasks alike, names exactly the tasks of its kind of which some table it reads is written by them and by none registered before |
| Orchestrator.Graph.GetAllDownstream | pipeline/orchestrator.py:306-326 | without duplicates and on cyclic graphs too, exactly the path tasks reachable by one or more writes-reads edges |
| Orchestrator.Graph.MapProducers | pipeline/orchestrator.py:222-231 | each table is mapped to the first task registered that writes it |
| Orchestrator.Graph.SameKindDeps | pipeline/orchestrator.py:238-249 | the names of the first registered writers, of the task's own kind, of each of the tables it reads, and no other |
| Orchestrator.Graph.Expand | pipeline/orchestrator.py:319-325 | adds exactly what a task feeds and the list does not hold yet, and puts it on the frontier |
| PipelineGraph.UpstreamFeeds | pipeline/orchestrator.py:216-257 | every upstream edge is a writes-reads edge, so a completion reaches every task that waits on it |
| PipelineGraph.UnreadFeedsNothing | pipeline/orchestrator.py:306-326 | nothing is downstream of a task whose tables no path task reads |
| PipelineGraph.UpstreamExactly | pipeline/orchestrator.py:216-257 | by places in the registry: a task waits for another if and only if some table it reads is written by that one, of the same kind, and by none registered before it |
| Freshness.DepsMetExactly | pipeline/orchestrator.py:295-304 | a task is ready if and only if all those writers, or any one of them, are finished on the path; without any it is always ready |
| TaskQueue.Table.ReEnqueue | pipeline/database.py:441-456 | makes the row pending and clears its times; an existing row keeps its creation time |
| TaskQueue.Table.Claim | pipeline/database.py:458-479 | takes at most `n` distinct pending rows, none worse by priority and then age than a row left behind, and fewer than `n` only if none is left |
| TaskQueue.AttachmentWaitsItsTurn | pipeline/database.py:15-29 | concrete case: an attachment queued after an ordinary file is not claimed before it |
| TaskQueue.AttachmentAheadExactly | pipeline/database.py:458-479 | with the priorities the code gives, every claim that takes a pending file takes a pending attachment too if and only if the attachment was created strictly before the file |
| TaskQueue.AttachmentsExactly | pipeline/database.py:15-29 | an attachment is exactly the cache directory itself or a path below it, with either separator |
| TaskQueue.PrioritiesKept | pipeline/database.py:18-29 | queueing, closing and forgetting rows leave each with the priority its path calls for |
| TaskQueue.PrioritiesKeptByMany | pipeline/database.py:458-585 | so do claiming rows, giving them back and resetting them |
| TaskQueue.Table.Invalidate | pipeline/database.py:572-585 | resets exactly the rows of the named tasks on the named paths that are not pending |
| TaskQueue.Table.Unclaim | pipeline/database.py:774-782 | returns the rows to pending |
| TaskQueue.Table.ResetStuck | pipeline/database.py:533-548 | resets exactly the rows of the task that run since before the cutoff |
| TaskQueue.Table.ResetFailed | pipeline/database.py:550-560 | resets exactly the failed rows of the task |
| TaskQueue.Table.ResetTask | pipeline/database.py:562-570 | resets every row of the task |
| TaskQueue.NoneStuck | pipeline/database.py:533-548 | after a sweep no row of the task runs since before the cutoff; those are pending, as old as they were, and nothing else differs |
| TaskQueue.NoneFailed | pipeline/database.py:550-560 | after a retry no row of the task is failed and nothing else differs |
| TaskQueue.AllPending | pipeline/database.py:562-570 | after a reset of the task all its rows are pending, with no time but that of creation |
| TaskQueue.ClaimedAndBack | pipeline/database.py:458-489 | claimed rows run from now; rows given back are pending with no start |
| TaskQueue.ClosedOne | pipeline/database.py:481-499 | an outcome closes one row and dates it |
| TaskQueue.QueuedOne | pipeline/database.py:430-456 | a new row is pending from now; one that is there is left alone, or queued again as old as it was |
| TaskQueue.InvalidatedAll | pipeline/database.py:572-585 | an invalidation leaves the named tasks pending on the named paths, rows pending already with their times |
| TaskQueue.FileForgotten | pipeline/database.py:379-384 | forgetting a file removes its rows and no other |
| Pipeline.Dispatcher.DependenciesMet | pipeline/orchestrator.py:295-304 | all, or any one, of the upstream tasks are finished on the path; a task with none is always ready |
| Pipeline.Dispatcher.OnTaskCompleted | pipeline/orchestrator.py:428-445 | each path task that reads from the completed one is pending or still waits, and no other row changed |
| Pipeline.Dispatcher.OnAlsoContains | pipeline/orchestrator.py:447-459 | each task for one of the kinds is pending or waits, and no other row changed |
| Pipeline.Dispatcher.OnFileDiscovered | pipeline/orchestrator.py:372-388 | each root task for the kind is under way or waits, nothing below a row this opened is left closed, and only idle roots and what lies below them changed |
| Pipeline.Dispatcher.StartIfIdle | pipeline/orchestrator.py:378-388 | one root task: nothing if it is under way or waits, else it is queued again and exactly the tasks below it are reset |
| Pipeline.Dispatcher.OnPathsDiscovered | pipeline/orchestrator.py:473-503 | every root task of every new file is under way or waits, and only rows of those files changed |
| Pipeline.Dispatcher.InvalidateDownstream | pipeline/orchestrator.py:328-336 | resets exactly the downstream tasks on the given paths |
| Pipeline.Dispatcher.ProcessResult | pipeline/orchestrator.py:920-970 | what one result does: a failure closes its row; a success goes back to the queue if an input went away, else closes its row and tells readers, other contents and new files; the freshness invariant is kept, a failure being owed until its batch ends |
| Pipeline.Dispatcher.HandleSuccess | pipeline/orchestrator.py:933-970 | the same for a reported success, which fails if writing its rows raised |
| Pipeline.Dispatcher.CompleteAndTell | pipeline/orchestrator.py:956-957 | the row is closed, then its readers are told, in one step of the freshness invariant |
| Pipeline.Dispatcher.FanOut | pipeline/orchestrator.py:966-969 | first the other contents of the file, then the new files |
| Pipeline.Dispatcher.KeepReady | pipeline/orchestrator.py:718-733 | after the claim the inputs are checked once more; exactly the paths that have to wait are given back |
| Pipeline.Dispatcher.Dispatch | pipeline/orchestrator.py:694-738 | past the gates the best pending rows are claimed; those whose inputs are there form the batch and take one slot, the rest go back, and with none ready the slot is released |
| Pipeline.Dispatcher.Work | pipeline/orchestrator.py:914-931 | one result of a running batch, with any other batches in between |
| Pipeline.Dispatcher.Finish | pipeline/orchestrator.py:914-918 | the end of a batch resets everything below its failures, frees its slot and settles what it owed |
| Pipeline.Dispatcher.ReturnPaused | pipeline/orchestrator.py:879-885 | a batch of a task paused before it began goes back to the queue and frees its slot |
| Pipeline.Dispatcher.Execute | pipeline/orchestrator.py:872-918 | a whole batch: each result is recorded in turn, then exactly the tasks below the failed paths are reset; when the answer covers every path, or the body crashed, no path of the batch is left running; else exactly those it left out are |
| Pipeline.PadResults | plugins/BaseTask.py:231-246 | on the effects contract an answer is cut or padded with failures to one result for each path |
| Pipeline.FailedExactly | pipeline/orchestrator.py:898-918 | every path of a batch gets a result unless one that did not raise answers short; after an error all fail, else exactly those reported as failed or not written |
| Pipeline.Dispatcher.Take | pipeline/orchestrator.py:676-738 | each step of a run does exactly what `Stepped` says of it and keeps the state in order: results fresh or accounted for, free slots and running batches adding up to each limit; exactly the rows a short answer left out of the batch a step ends are added to those known to be left out, and every running row is held by a batch or among them |
| Pipeline.Run | pipeline/orchestrator.py:676-970 | over every graph and every interleaving of discoveries, deletions, resets, pauses, claims and results, after each step: on a path with nothing queued, running or owed, each finished all-inputs task is newer than the first writers of all it reads, which are finished, each finished any-input task newer than those that are, of which there is one, and every task that reads something and has its inputs has finished or failed; every running row is held by a batch or was left out of a short answer by an earlier step, so if no answer was short every running row is held |
| PipelineSteps.ClosedGatesStartNothing | pipeline/orchestrator.py:676-709 | a task that is paused, lacks services or has no free slot: a claim changes nothing |
| PipelineSteps.OpenGatesStartReady | pipeline/orchestrator.py:676-738 | with the gates open the best pending rows are claimed, and if any of them has its inputs exactly those that do start as one batch and take a slot |
| PipelineSteps.PausedBatchReturns | pipeline/orchestrator.py:879-886 | a batch of a paused task that has not begun goes back, its rows pending and its slot free; any other batch stays |
| PipelineSteps.BatchStarts | pipeline/orchestrator.py:694-738 | a batch that starts is of a task that may run, and has one path at least and no more than fit; each was pending, has its inputs and runs from now; one slot is taken |
| PipelineSteps.ResultIsRecorded | pipeline/orchestrator.py:920-970 | a result fails if and only if it reports so or its rows could not be written, and then fails just its row; a success whose inputs are gone goes back; else the row is finished, or queued anew already, and every task that reads from it and has its inputs is queued or runs |
| PipelineSteps.FailuresResetBelow | pipeline/orchestrator.py:914-918 | when a batch ends every row below its failures is pending, no other row changes, and its slot is free |
| Freshness.QuietIsFresh | pipeline/orchestrator.py:295-304 | the invariant makes every finished task on a quiet path newer than the first writers of what it reads |
| Freshness.CompletingKeepsInv | pipeline/orchestrator.py:428-445 | completing a task whose inputs are there, and queueing its readers, keeps the invariant |
| Freshness.FailingKeepsInv | pipeline/database.py:491-499 | a failure keeps it as long as the resets below are owed |
| Freshness.SettlingKeepsInv | pipeline/orchestrator.py:328-336 | once everything below the failures is reset nothing is owed |
| Freshness.ForgettingKeepsInv | pipeline/database.py:379-384 | forgetting a file keeps it |
| Freshness.OpeningKeepsInv | pipeline/orchestrator.py:372-388 | opening rows in any way keeps it |
| PipelineDraining.RecordingLowersLoad | pipeline/orchestrator.py:920-970 | on an acyclic graph each recorded success or failure without new files or contents strictly lowers the load: a row weighs one more than all tasks below it together |
| PipelineDraining.ProcessingDescends | pipeline/orchestrator.py:920-970 | taking up any result, also one put back, strictly lowers the measure |
| PipelineDraining.ClaimingDescends | pipeline/orchestrator.py:709-738 | starting a batch strictly lowers the measure; a claim that starts none leaves it as it is |
| PipelineDraining.EndingDescends | pipeline/orchestrator.py:914-918 | ending a batch, with the resets below its failures, strictly lowers the measure |
| PipelineDraining.DrainingDescends | pipeline/orchestrator.py:676-745 | every draining step either starts, advances or ends a batch and lowers the measure, or leaves the batches and the status of every row alone; and the load falls by at least one for a row it closes |
| PipelineDraining.MovesComeToAnEnd | pipeline/orchestrator.py:676-745 | along every endless schedule of such steps, idle ones in between or not, there is a step after which no batch starts, advances or ends and no row changes its status |
| PipelineDraining.ClosingsBounded | pipeline/orchestrator.py:676-745 | a run of any length closes at most as many rows as the load it began with |
| PipelineDraining.Drain | pipeline/orchestrator.py:676-745 | the dispatcher itself makes such a run of any schedule, within that bound |
| PipelineDraining.StuckExactly | pipeline/orchestrator.py:676-738 | nothing can move if and only if no batch is left and no claim that may be made holds a row whose inputs are there |
| PipelineDraining.StuckRowsWait | pipeline/orchestrator.py:709-733 | then every pending row of a task that may be claimed waits for its inputs, if the rows fit into one batch |
| PipelineDraining.ReadyRowBehindAWaitingOne | pipeline/orchestrator.py:709-733 | concrete case where they do not fit: an old row whose input failed is claimed and given back for ever, and a ready row behind it never starts |
| PipelineDraining.WeightOfBelow | pipeline/orchestrator.py:306-326 | the weight of a task is one more than the sum over all tasks downstream |
| PriorityLock.Run | pipeline/database.py:93-125 | over all interleavings with spurious wake-ups: acquisitions and releases alternate by one thread, whoever acquires while high threads wait is one of them, and a free lock with waiters has one awake that will take it |
| PriorityLock.NextKeeps | pipeline/database.py:102-125 | every step keeps the count of waiting high threads right and lets only threads sleep that have to wait |
| PriorityLock.Lock.Enter | pipeline/database.py:102-120 | a thread sleeps exactly when it has to wait, else holds the lock |
| PriorityLock.Lock.Recheck | pipeline/database.py:102-120 | a woken thread goes on sleeping exactly when it has to wait |
| PriorityLock.Lock.Wake | pipeline/database.py:108-118 | a wake-up, notified or spurious, only lets the thread look again |
| PriorityLock.Lock.Exit | pipeline/database.py:121-125 | the lock is free, the thread is gone, every other is there with its priority, and every sleeper is awake |
| PriorityLock.NoWakeUpLost | pipeline/database.py:102-125 | no wake-up is lost: a free lock with waiters has one that is awake and will take it |
| PriorityLock.ReleasedIsTaken | pipeline/database.py:102-125 | after any steps and the exit of the holder the lock is free; if threads wait, one of them, interactive if any is, takes it by looking once |
| PriorityLock.InteractiveGoesFirst | pipeline/database.py:102-125 | concrete case: of two waiting threads the interactive one, which came later, takes the lock |
| Sessions.Run | runtime/conversation_runtime.py:120-260 | every series of steps is what `After` says, and from any conversations, without changes past the runtime, each session's conversation is there and owned by its effective user, and the active session is a live one |
| Sessions.Take | runtime/conversation_runtime.py:478-582 | no guarded operation makes a stray session, whatever happened outside before; an action leaves its own session on no foreign or deleted conversation |
| Sessions.Runtime.Reconcile | runtime/conversation_runtime.py:622-651 | from any state the session is taken off a conversation that is gone or foreign, and only then |
| Sessions.Runtime.HandleAction | runtime/conversation_runtime.py:120-256 | after the entry check whatever the action writes goes to a conversation of the session's own user; it succeeds if and only if it was admitted, the conversation it loads is accessible, and a user's text has a conversation to go to; a user's successful action leaves no session active if and only if it switched conversation, else the conversation is remembered for the user |
| Sessions.SwitchingLeavesNoneActive | runtime/persistence.py:215-221 | concrete case: a user switches from one conversation to another, is there, no session is active, and the switch is not remembered |
| Sessions.RestartReopens | runtime/conversation_runtime.py:823-875 | after a restart a user's first session reopens what was remembered for them, if it is still there and theirs |
| Sessions.AfterBoth | runtime/conversation_runtime.py:120-260 | the state after two series of steps is that of the second after the first |
| Sessions.Runtime.SetSessionUser | runtime/conversation_runtime.py:742-778 | a change of user leaves the old conversation, remembers it for the old user, and lands on what the new user last had open if it is still there and theirs, else on none |
| Sessions.Runtime.DeleteConversation | runtime/conversation_runtime.py:563-620 | only an owner deletes; then no session and no remembered pointer names the conversation |
| Sessions.Runtime.OpenSession | runtime/persistence.py:72-120 | an accessible conversation or a new row of the session's user; a conflict if and only if the session is on another conversation and the one asked for is accessible |
| Sessions.Runtime.Load | runtime/persistence.py:138-199 | binds the session, keeping its user; refuses exactly when it is on another conversation |
| Sessions.Runtime.LoadConversation | runtime/conversation_runtime.py:519-526 | loading by number is refused exactly when the conversation is not the session user's |
| Sessions.Runtime.LoadHistory | runtime/persistence.py:202-236 | switches to an accessible conversation with the same user; the close in between clears the active session |
| Sessions.Runtime.InjectUserMessage | runtime/persistence.py:337-366 | the message goes to a conversation of the session's user, provided the session was not a stray or the conversation was named |
| Sessions.Runtime.CloseSession | runtime/persistence.py:374-386 | the session is gone and not active |
| Sessions.Runtime.ResetConversation | runtime/persistence.py:239-260 | the session keeps its user and loses its conversation |
| Sessions.Runtime.EnsureConversation | runtime/persistence.py:502-509 | an unbound session gets a new row owned by its user |
| Sessions.Runtime.LoadLastActive | runtime/conversation_runtime.py:844-875 | loads exactly when the remembered conversation is accessible and the session unbound |
| Sessions.Runtime.RememberLastActive | runtime/conversation_runtime.py:884-903 | the user's last conversation is known to the process and saved |
| Sessions.Runtime.RestoreLastActive | runtime/conversation_runtime.py:832-842 | once for each session, and only if the setting allows it |
| Sessions.Runtime.GetSession | runtime/persistence.py:48-60 | the session there, or a new unbound one of the base user |
| Sessions.Runtime.CreateConversation | runtime/persistence.py:123-135 | a row with a number never used before makes no stray |
| Sessions.Runtime.DeleteRow | pipeline/database.py:1475-1484 | an outside deletion makes strays of holders only |
| TurnJournal.RunAndRollBack | effects/interpreter.py:229-267 | for every turn of any requests, refused ones, repeats on one path and database writes that raise part-way included, files, rows and scheduled jobs after the rollback are functions of requests and start, and each comes back if and only if its condition on them holds; whether a request succeeds is one too |
| TurnEffects.FilesBackExactly | effects/interpreter.py:629-641 | all files come back with their bytes, and no other is left, if and only if no write that was carried out went below the path of a file of the start |
| TurnEffects.FileBackExactly | effects/interpreter.py:629-641 | the same for one file |
| TurnEffects.RowsBackExactly | effects/interpreter.py:655-662 | a table comes back if and only if no row that got into it shares a unique value with one of its rows, and each row left by a write that raised, before any write to the table was carried out, was replaced by a later one; rows left after that go with the trim |
| TurnEffects.HalfWrittenRowStays | pipeline/database.py:841-853 | concrete failure: a write raises at its second row, and the first is still there after the rollback |
| TurnEffects.JobsBackExactly | plugins/helpers/scheduling_surface.py:26-57 | the scheduled jobs come back if and only if each is, at the first change to it that was carried out, as it was at the start, and each without one at the end |
| TurnEffects.JobBackUnlessHalfDone | plugins/helpers/scheduling_surface.py:26-57 | a job comes back whatever was done to it, unless a change to it raised half-way |
| TurnEffects.FileBecomesDirectory | effects/interpreter.py:622-683 | concrete failure: delete a file, write a file below its name, roll back; the first file stays lost |
| TurnEffects.ReplacedRowIsLost | effects/interpreter.py:655-660 | concrete failure: a row replaced by one with the same key is not there after the rollback |
| TurnEffects.StrandedJobStays | plugins/helpers/scheduling_surface.py:26-29 | concrete failure: a job that never fires is still there after the rollback of the turn that created it |
| TurnJournal.StepJournalled | effects/interpreter.py:622-696 | a request, carried out or not, keeps the recorded entries worth the state the turn started from |
| TurnJournal.Turn.Rollback | effects/interpreter.py:251-263 | undoing in reverse leaves what the functions of requests and start say; the errors are exactly the steps whose file has become a directory |
| TurnJournal.NoneBlockedExactly | effects/interpreter.py:251-263 | the rollback counts no error if and only if no file that was written or deleted has become a directory |
| TurnJournal.Turn.Fulfil | effects/interpreter.py:622-696 | a request succeeds exactly when it is allowed, a file write has a place, and neither a database write nor a change to the jobs raises; then it records its one undo step, else none |
| TurnJournal.Turn.Write | effects/interpreter.py:624-643 | fails exactly when the path is a directory or lies below a file; else writes, makes exactly the missing directories and records how to undo it |
| TurnJournal.Turn.Delete | effects/interpreter.py:666-683 | removes the file if there is one and records how to undo it |
| TurnJournal.Turn.Insert | effects/interpreter.py:645-664 | the rows that get in are inserted with replacement; the greatest rowid before is recorded unless the write raised |
| TurnJournal.Turn.Schedule | plugins/helpers/scheduling_surface.py:26-57 | captures the names a change touches before it is carried out; a change that raises records nothing, whatever it did |
| TurnJournal.Turn.UndoStep | effects/interpreter.py:634-679 | each kind of undo step does what its replay function says, and fails exactly if its file has become a directory |
| TurnEffects.InsertOrReplace | pipeline/database.py:841-856 | rows up to the old greatest rowid stay unless a written row shares a unique value with them; each written row is there above them unless a later one replaced it |
| TurnEffects.InsertedAll | pipeline/database.py:841-853 | what any series of rows makes of a table: the old rows no new one replaced, and above them the new rows no later one replaced, and nothing else |
| TurnEffects.WriteIsUndone | effects/interpreter.py:634-641 | the undo of a write takes the files back, under any directories |
| TurnEffects.DeleteIsUndone | effects/interpreter.py:676-681 | the undo of a delete takes the files back, under any directories |
| TurnEffects.WrittenRows | effects/interpreter.py:659-662 | trimming and all earlier undos leave exactly the start rows that no row written so far replaced |
| TurnEffects.Newest | effects/interpreter.py:655-656 | the greatest rowid, zero for an empty table |
| JobDefinitions.NormalizeIdempotentExactly | runtime/scheduling.py:76-114 | a normalized job is left unchanged by normalizing again if and only if it is repeating, its moment came with a zone, or the local offset at the entered moment is that of the moment of entry |
| JobDefinitions.NaiveMomentIsRewritten | runtime/scheduling.py:67-73 | concrete case: a moment entered before the clocks change and lying after it is written with another offset the second time |
| JobDefinitions.NormalizeAgain | runtime/scheduling.py:67-114 | normalizing a normalized job never fails and keeps every field and the moment, at most writing it with another offset |
| JobDefinitions.NormalizeTwiceIsFixed | runtime/scheduling.py:67-114 | from the second time on normalizing changes nothing |
| JobDefinitions.NormalizeExactly | runtime/scheduling.py:76-114 | a definition is taken if and only if it has a channel and an object to send, and either a readable moment and no cron, or an accepted cron and no moment; then every field stays, the channel trimmed and the moment the one that was meant |
| JobDefinitions.NextFireExactly | runtime/scheduling.py:117-124 | a disabled job has no fire time, a one-time job its moment unless that has passed, a repeating one the next of its schedule; it raises if and only if an enabled repeating job has none |
| JobDefinitions.MergedIsPatched | runtime/scheduling.py:256-268 | an update that is taken has every field the patch names and every other as it was |
| JobTable.ChangeKeeps | runtime/scheduling.py:245-317 | a change keeps every job normalized and touches only the names it captures; an error other than a cron that never fires changes nothing |
| JobTable.ChangeSucceedsExactly | runtime/scheduling.py:245-282 | a change fails if and only if it creates a job that is there, updates one that is not, or would store what cannot be taken; removing never fails |
| JobTable.WholeUnlessStranded | runtime/scheduling.py:245-317 | a change leaves jobs and fire times with the same names if and only if it is not the creation of a job, well defined and new, whose cron never fires from now on |
| JobTable.RunKeepsValid | runtime/scheduling.py:145-346 | over every run of changes, reloads, reads, captures and restores every job is normalized and no fire time is kept for an unknown one |
| JobTable.WholeThroughoutExactly | runtime/scheduling.py:145-346 | jobs and fire times have the same names after every step of such a run if and only if no step creates such a job |
| JobTable.NeverFiringJobIsStranded | runtime/scheduling.py:251-252 | concrete case: creating a job for the thirtieth of February raises, and the job is in one table only |
| JobTable.PutBackUndoes | runtime/scheduling.py:321-346 | whatever was changed among the captured names, putting them back brings the table back |
| JobTable.PutBackAllExactly | runtime/scheduling.py:321-346 | a capture without names brings the table back if and only if no name was added since |
| JobTable.LaterJobStays | runtime/scheduling.py:321-346 | concrete case: a job created after a capture without names survives putting it back |
| JobTable.UndoneInARun | runtime/scheduling.py:245-346 | in any run a change between capturing the names it touches and restoring them leaves no trace |
| JobTable.AfterBoth | runtime/scheduling.py:145-346 | the table after two series of steps is that of the second after the first |
| JobTable.ReloadKeeps | runtime/scheduling.py:145-176 | a reload, taken or not, leaves a table in order |
| JobTable.ReloadedExactly | runtime/scheduling.py:145-176 | a reload is taken if and only if every definition is in order and, if enabled and repeating, fires again; then the table holds exactly the definitions, normalized and with their next fires, but no one-time job whose moment has passed if those are to go |
| JobTicks.FiresInTurn | plugins/services/service_timekeeper.py:73-118 | over any passes, however late, an enabled repeating job fires for the times of its schedule one after another, provided no repeating job's schedule comes to an end |
| JobTicks.FiresWhenDue | plugins/services/service_timekeeper.py:84-98 | in each pass it fires if and only if its next time has come and no job blocks the reading |
| JobTicks.NoneSkipped | runtime/scheduling.py:288-296 | the fired times are exactly the schedule's times up to the last one |
| JobTicks.FiresAscend | runtime/scheduling.py:288-296 | no time fires twice |
| JobTicks.ShownRaisesExactly | runtime/scheduling.py:227-241 | reading the table raises if and only if some enabled job has no fire time kept and none to come |
| JobTicks.AdvancedFailsExactly | runtime/scheduling.py:288-317 | moving on fails if and only if the schedule of one of the repeating jobs has ended |
| JobTicks.TickMoves | plugins/services/service_timekeeper.py:73-118 | what a pass makes of one repeating job: if it did not fire it keeps its time, or gets one that was missing; fired on the last time of its schedule it stays on it; else it moves to the next, provided no job of the pass ended |
| JobTicks.TickMovesExactly | plugins/services/service_timekeeper.py:84-118 | what a pass makes of the job fired at each place: a repeating one moves to its next time, and a one-time one is removed, if and only if no repeating job fired up to that place was on the last time of its schedule; else it stays on the time it fired for |
| JobTicks.AdvancedExactly | runtime/scheduling.py:288-317 | moving on alone: before the first job whose schedule has ended one-time jobs go and repeating ones move to their next time; that job and those behind it stay as they are |
| JobTicks.FiresInTurnExactly | plugins/services/service_timekeeper.py:73-118 | over any passes an enabled repeating job fires for the times of its schedule one after another and is left on the next if and only if no pass held it back, that is, fired it at or after a job on the last time of its schedule |
| JobTicks.DailyJobBehindAnEndedOne | runtime/scheduling.py:302-314 | concrete failure: a daily job behind one whose schedule has ended fires, stays on its time, and leaves the table as it was, so the next pass does the same |
| JobTicks.StrandedBlocksEveryTick | runtime/scheduling.py:227-241 | an enabled job that never fires, once stranded, keeps every later pass from firing anything |
| JobTicks.LastFireRepeats | runtime/scheduling.py:302-314 | a job on the last time of its schedule fires for it again at every pass that is not blocked |
| OneTimeJobs.CreatedJobWaits | runtime/scheduling.py:245-254 | a one-time job that is created waits for its moment if and only if it is enabled and the moment has not passed; else it has no fire time |
| OneTimeJobs.OneTimePass | plugins/services/service_timekeeper.py:73-118 | a waiting one-time job fires in a pass, with its moment, if and only if the moment has come and no job blocks the reading, and is gone then unless it was held back |
| OneTimeJobs.FiresUntilDone | plugins/services/service_timekeeper.py:73-118 | over any passes it fires in each that reaches its moment until one does not hold it back, and is there exactly until then |
| OneTimeJobs.FiresOnceExactly | plugins/services/service_timekeeper.py:73-118 | it fires exactly once, with its moment, and is gone if and only if some pass reaches the moment and the first that does holds nothing back |
| OneTimeJobs.NeverFires | plugins/services/service_timekeeper.py:73-118 | a one-time job that is disabled, or whose moment had passed when it was entered, stays and never fires |
| JobStore.Store.Run | runtime/scheduling.py:145-346 | the store over any such run is what `After` says, and in order |
| JobStore.Store.CreateJob | runtime/scheduling.py:245-254 | succeeds if and only if the name is free and the definition can be taken, and then stores the normalized job with the fire time it has to have; the tables keep equal names if and only if the name is taken, the definition is bad or there is a next fire |
| JobStore.Store.UpdateJob | runtime/scheduling.py:256-268 | succeeds if and only if the name is known and the merged definition can be taken, and then stores the job with the fields the patch names, normalized, with the fire time it has to have, and nothing else |
| JobStore.Store.RemoveJob | runtime/scheduling.py:270-282 | removes the name from both tables |
| JobStore.Store.Reload | runtime/scheduling.py:145-176 | if all definitions normalize and fire the table is exactly theirs, without lapsed one-time jobs on request, each with the fire time it has to have; else it stays |
| JobStore.Store.AdvanceJobs | runtime/scheduling.py:288-317 | one-time jobs go, repeating ones move to their next fire after the time they were scheduled for, or after now if that is unknown, up to the first that raises |
| JobStore.Store.CaptureState | runtime/scheduling.py:321-334 | the named entries, or all there are |
| JobStore.Store.Restore | runtime/scheduling.py:336-346 | captured names are as captured, present or absent, all others untouched |
| JobStore.Store.Apply | plugins/helpers/scheduling_surface.py:26-57 | each kind of request is carried out as `Changed` says |
| JobStore.Store.Snapshot | runtime/scheduling.py:227-241 | missing fire times are filled in, up to the first job that raises |
| JobStore.Store.Tick | plugins/services/service_timekeeper.py:73-118 | fires exactly what is due with the time it was due at and moves those jobs on, or nothing at all if a job blocks the reading |
| JobStore.Store.Ticks | plugins/services/service_timekeeper.py:73-118 | any series of passes, each what `Ticked` says |
| TurnLoop.DrivenInOrder | runtime/conversation_loop.py:206-347 | for every series of replies, outcomes, verdicts, cancels and messages: each call row is followed at once by its result; every row is of a known origin, text and messages verbatim; each call row is one a hook queued or a reply's, the rows of a reply are its first calls in order with nothing between, and messages found together stand together in order; no tool is counted beyond its `max_calls` and no doorman beyond three verdicts |
| TurnLoop.Loop.Drive | runtime/conversation_loop.py:206-347 | the drive is the one `Driven` says, which makes at most four times one more than the call limit passes |
| TurnEnds.WellOrdered | runtime/conversation_loop.py:206-347 | over every drive: whatever is done is followed only by what may follow it, and nothing by what raised or asked for the turn to be driven again; the drive raises if and only if the last thing done did; the model is asked, a tool run and a text said only if just before the drive was not cancelled, and the model only in a pass that began with the turn the agent's |
| TurnEnds.NotAskedAgain | runtime/conversation_loop.py:389-474 | over every drive: once the model has replied with text it is not asked again unless messages were taken in, a queued call was taken, a doorman sent the agent back, or the agent had lost the turn in between |
| TurnEnds.AskedWithinBudget | runtime/conversation_loop.py:250-254 | a drive asks the model at most four times one more than the call limit, the last words besides |
| TurnEnds.RunWithinLimit | runtime/conversation_loop.py:609-619 | in every drive a registered tool runs as often as it is counted, and never more often than its limit |
| TurnEnds.SentBackThreeTimes | runtime/conversation_loop.py:996-1057 | in every drive doormen send the agent back at most three times |
| TurnEnds.EndsTheTurn | runtime/conversation_loop.py:254-340 | if the agent keeps the turn, nothing raises and nobody has it driven again, ending the turn is the last thing every drive does, also a cancelled, failed or exhausted one |
| TurnEnds.OneTextReply | runtime/conversation_loop.py:254-340 | an undisturbed drive in which the model replies with text: one row, one call of the model, and the end |
| TurnEnds.OneCallThenText | runtime/conversation_loop.py:254-340 | with one tool call before: the pair of rows, the text, two calls of the model, and the end |
| TurnLoop.PassKeeps | runtime/conversation_loop.py:254-329 | one pass keeps rows, budgets and pending calls in order |
| TurnLoop.Loop.Pass | runtime/conversation_loop.py:254-329 | one pass drains the messages, chooses and acts, as `PassOf` says |
| TurnLoop.Loop.NextAction | runtime/conversation_loop.py:389-474 | a cancelled turn does nothing more; else a pending call comes first, then a queued one; the turn ends if and only if neither is there, a text was said and the agent holds the turn; else the model is asked and its text said or its first call taken |
| TurnLoop.AbsorbedKeeps | runtime/conversation_loop.py:480-518 | a call row and, directly after it, the result row with the same id continue the reply they are from |
| TurnLoop.Loop.RunCall | runtime/conversation_loop.py:280-325 | refused if and only if the arguments are garbage or a registered tool was enacted as often as its limit, and then nothing is enacted; the pair of rows is recorded unless an enactment raised |
| TurnLoop.Loop.PopCall | runtime/conversation_loop.py:409-422 | the first pending call, carrying the reply's text only if it is the reply's first |
| TurnLoop.Loop.AskModel | runtime/conversation_loop.py:456-468 | the calls of a reply become pending with its text and the first is taken; a text is final; a model call that raises leaves nothing pending and ends the drive |
| TurnLoop.Loop.ToolBudgetError | runtime/conversation_loop.py:609-619 | refuses exactly a registered tool at its limit, and counts the others |
| TurnLoop.Loop.DoormanGate | runtime/conversation_loop.py:996-1057 | by the verdict: a note or a known tool sends the agent back with nothing said, a redrive has the turn driven again, all else lets it go, and after three fires none is asked; a note is recorded unless ephemeral or blank |
| TurnLoop.Loop.FinishOverBudget | runtime/conversation_loop.py:1096-1139 | the last words are said, and are the final text, unless a doorman waves the turn through or has it driven again |
| TurnLoop.Loop.WrapUp | runtime/conversation_loop.py:331-340 | a turn the agent still holds is wrapped up, unless it failed, was cancelled or is driven again, and ended |
| TurnLoop.Loop.DrainQueuedMessages | runtime/conversation_loop.py:1155-1182 | when no call is pending all queued messages become user rows, in order, and the final text is forgotten; else nothing changes |
| MessageQueue.QueuedInOrder | runtime/conversation_runtime.py:140-256 | over all interleavings: queued messages stand in the transcript in the order of acceptance, those taken or pending come after them in that order, and each accepted message is in exactly one place or was dropped by a cancel |
| MessageQueue.RecordedInOrderExactly | runtime/conversation_runtime.py:140-256 | all messages stand in that order if and only if none of those recorded was overtaken, that is, still pending when another was sent between turns |
| MessageQueue.InOrderUnlessOvertaken | runtime/conversation_runtime.py:140-192 | in particular if no step sends a message between turns while others are pending, cancels or not |
| MessageQueue.InOrderExactlyUnlessOvertaken | runtime/conversation_runtime.py:186-192 | and in a run without cancels that has recorded all, only if no step does |
| MessageQueue.ThirdOvertakesSecond | runtime/conversation_runtime.py:186-249 | concrete failure: the second message waits, the turn ends, a third is sent before the follow-up; the transcript holds first, third, second |
| MessageQueue.Run | runtime/conversation_runtime.py:140-256 | the session after any steps is what `After` says, and so has these properties |
| MessageQueue.Session.Send | runtime/conversation_runtime.py:140-192 | a text message is queued while a turn runs, else recorded at once |
| MessageQueue.Session.RecordNext | runtime/conversation_loop.py:1178-1181 | taken messages become user rows one by one, in order |
| MessageQueue.Session.Cancel | runtime/conversation_runtime.py:143-149 | drops exactly what is pending |
| MessageQueue.Session.Drain | runtime/conversation_loop.py:1169-1175 | the loop takes the whole queue at once |
| MessageQueue.Session.FollowUp | runtime/conversation_runtime.py:233-249 | the first leftover starts a turn of its own |
| ModelEscorts.ModelCall.Layer | runtime/hooks.py:349-370 | the loop with its mutable record of the last dial equals the reference answer; calls stay within both bounds |
| ModelEscorts.NoRedial | runtime/hooks.py:361-369 | what the reference answer is once an escort is done dialing: its own response, else the last response it got, in both cases without another call; only with neither is the next layer asked, with the request as it came |
| ModelEscorts.Place | runtime/hooks.py:333-347 | one model call places at most the product of max(1, dials) backend calls if no dial fails, and at most the product of (dials + 1) in any case |
| ModelEscorts.FailedDialIsRepeated | runtime/hooks.py:361-369 | concrete case above the first bound when a dial fails |
| PluginHealth.Run | runtime/supervisor.py:60-124 | over any reports whose events are in the order of time the deques are the windows, and the quarantines requested are exactly those of the strikes that trip, in order |
| PluginHealth.Health.RecordStrike | runtime/supervisor.py:89-115 | for any strike not before an earlier one, the deque stays the strikes of the last 60 seconds since the last success, clear or trip; quarantine is requested exactly when an eligible strike finds at least three |
| PluginHealth.Health.RecordSuccess | runtime/supervisor.py:82-87 | a clean run forgets the strikes and nothing else |
| PluginHealth.Health.ClearHistory | runtime/supervisor.py:117-124 | a reload forgets strikes and quarantine |
| PluginHealth.Trimmed | runtime/supervisor.py:99-102 | dropping from the left leaves exactly the window |
| PluginHealth.OneRequestBetweenClears | runtime/supervisor.py:66-73 | between two requests for one plugin lies a clear |
| PluginHealth.TripsAtThirdExactly | runtime/supervisor.py:97-107 | with the eligibility of a plugin's strikes constant, as every caller has it, and whatever other plugins do: a strike trips the breaker if and only if it is eligible, the plugin not yet condemned, and it is exactly the third in the window |
| PluginStrikes.TripsExactly | runtime/supervisor.py:89-115 | told by the events alone: a strike trips the breaker if and only if it is eligible, the plugin was not condemned and is not yet cleared, and two earlier strikes are still held against it, the older at most 60 seconds old |
| PluginStrikes.AllHeeded | runtime/supervisor.py:82-124 | reports that name a plugin, strikes only while enabled, are all heeded in order |
| PluginStrikes.OthersUnheeded | runtime/supervisor.py:84-94 | any other report might as well not have come |
| PluginHealth.TwoAtMost | runtime/supervisor.py:104-106 | then there are never more than two before the one that trips |
| PluginHealth.MoreThanThreeExactly | runtime/supervisor.py:99-107 | the class alone: a strike trips at more than three if and only if the third strike before it is still in the window |
| PluginHealth.MixedStrikesTripAtFour | runtime/supervisor.py:99-107 | concrete case of the class alone: three strikes that are not eligible, then one that is, and it trips at four |

## Left out

- SQL text, SQLite, JSON encoding, the ledger, logging and the event bus: tables are maps and sequences.
- Strictly increasing completion times are assumed; two completions with equal `time.time()` are not distinguished from a later and an earlier one.
- Pipeline.Run: some steps take several statements under the database lock: checking a result's inputs again, completing its row and telling its readers (pipeline/orchestrator.py:952-957) are one step, and so are a claim and giving back what has to wait. That nothing comes between these statements is assumed; a reset between the check and the completion would leave a finished row above an open input.
- Freshness.QuietIsFresh: newer means completed later. As in the code, a batch that began before its input was redone closes its row after it, and the row counts as newer.
- Rows reset while a worker still runs them are modelled for the queue, but not a second process writing the same database.
- Dispatcher: event-triggered runs, services, cascade triggers on output tables, dependencies of registration changes and a crash between a failure and its resets are not modelled; deleting a container's children is a series of single deletions.
- PipelineDraining.MovesComeToAnEnd: covers results without `also_contains` and `discovered_paths`, which can bring back any amount of work.
- TaskQueue.Table.Claim: does not state that attachments are claimed first, because both priority constants are 0 in the code; `TaskQueue.AttachmentAheadExactly` says when one is.
- PriorityLock.Run: fairness is not claimed; background threads can wait for ever behind interactive ones, and exceptions inside a wait are not modelled.
- TokenBatch.ThoughtsOfResponse: covers leading blocks and a plain answer; a thought without an opener is covered for the clean text only.
- Glob.CompiledMeansGlob: case folding is a parameter that keeps separators apart; newlines in paths are excluded by `Listed`.
- DangerTier.ChannelWalk.Visit: Python's recursion limit is not modelled.
- Sessions.Run: rows with a null owner and the `override` flag are not modelled; aliasing of session objects is not, so an action and the turn it drives are one step.
- TurnJournal.Turn.Insert: rows that choose their own rowid are not modelled; each gets one above the greatest. Rows left by a write that raised are taken to be committed by what the turn does next, as any later commit on the connection does.
- TurnJournal.Turn.Write: encoding errors and partial writes are not modelled; directories a write creates remain after a rollback.
- JobStore.Store.Snapshot: the names are read in any order, where the source sorts them; which fire times a reading that raises has filled in before depends on it.
- JobStore.Store.Tick: cron parsing is an abstract least fire time after a moment; the local zone is a fixed function from moments to offsets.
- TurnLoop.Loop.Drive: a reply that announces tool calls holds at least one by its type; a model call that raises ends the drive, and the last words said out of budget are the world's, the fallback included; compaction, truncation and streaming are not modelled, so transcript properties are about the rows appended in one drive.
- MessageQueue.Session.FollowUp: the dispatch of a leftover is assumed to be accepted; that a leftover is driven at all is not claimed after the fifth drive.
- ModelEscorts.ModelCall.Layer: an escort is a function of the moment, its request and the outcomes of its dials; side effects of escorts are not modelled.
- PluginHealth.Health.RecordStrike: times are real numbers and no strike that is counted comes before an earlier one, which is what `Chronological` says; a wall clock set back is not modelled.
- ProxyRegistry, the stall monitor, tool-dependency expansion, cache eviction, configuration merging and request wire formats would add only easy members.
- The state machine, the sandbox driver, frontends, plugin loading and HTTP are not part of this model.
