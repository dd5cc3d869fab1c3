# Console task control plane: a verified model

The Console keeps one table of task rows. Four kinds of actor write to it without coordinating: the
handler of gateway events, the periodic reconciler, the scheduler, and the user. This project models
that table and all of its writers, and proves what holds over every history of their steps. Six
neighbouring computations, each with a law of its own, are modelled beside it: the incremental parser
of server-sent events, the permission caches, daily availability, usage attribution, GPU snapshots and
the grouping of events in the timeline.

## How it is organised

Code that changes state is a class or a method whose contract gives the whole new state as a function of
the old one; that function is written as a table, not after the method's control flow, and the laws are
lemmas about it.

- `Prelude`, `OrderedMap`: options, truncation, JavaScript maps in insertion order.
- `TaskRows`, `TaskStores`: the table and the store's statements.
- `EventHandler`, `EventPaths`: the event handler, its transition table, and event-only runs.
- `Reconciler`, `Convergence`, `Ticks`: both passes, what repeated passes do, and what whole ticks do.
- `Schedules`, `Starvation`: schedule rows, one scheduler tick, bounds over runs of ticks, and which due
  schedules a tick reaches.
- `ControlPlane`: all writers as one step relation, and the invariants of every history.
- `Outcomes`, `FiringDates`: what each operation and each firing leads to, stated from the inputs alone, and where
  operations agree with one another.
- `OneAtWork`: when a step puts a second task of a session to work.
- `Interleaving`: the same table at the grain of single SQL statements, with overlapping handlers and
  decisions made on stale rows; `StatementsAtWork`: one task at work at that grain.
- `Permissions`, `PermissionCaches`, `PermissionStores`: the queries and level resolution, the caches as a
  step relation of interleaved calls, and the store itself.
- `SseParser`, `Availability`, `Usage`, `Gpu`, `Timeline`: the neighbouring computations.

A table is a sequence of rows and a row's id is its position, so ids follow creation order and no two
tasks of a session are created at the same instant. The gateway, the agent registry, clocks and error
texts are arbitrary parameters. In `ControlPlane` one operation is one step and reads the clock once; in
`Interleaving` one read or one SQL statement is one step. Recording a human decision is among the steps although no
route of the repository calls that store method yet.

## Where the code differs from its comments

The model follows the code.

- The event handler's comments (console/server/src/sse-task-updater.ts:127-128) say that a restarted
  session brings errored and interrupted tasks back to running. The store's guard
  (console/server/src/task-store.ts:300-309) drops the write for interrupted ones
  (`EventPaths.RecoveryReachesOnlyErrored`).
- `session.interrupted` means to keep the partial text as preview, but it first sets a status on which the
  preview is frozen (`EventPaths.PartialContentIsDropped`).
- "At most one task at work per session" is not an invariant: the handler applies events to the newest task
  whatever its status. `OneAtWork.StepKeepsSingleActiveIff` states for every operation exactly when it holds,
  `StatementsAtWork.StatementKeepsSingleIff` for every statement; two overlapping submissions break it too
  (`StatementsAtWork.SubmissionsOverlap`).
- Pass A picks the newest task among those still in its status filter, so the comment that older tasks keep
  their status (console/server/src/task-reconciler.ts:33-36) can fail once the newest one has left the filter.
  `Convergence.OlderKeptIff` says exactly when a pass keeps them; `Convergence.BoundIsTight` is a whole backlog
  rewritten that way.
- The stale branch and the error-recovery branch of Pass A undo each other
  (`Convergence.StaleNeverSettles`). This is the only obstacle to rest, and it can arise later: a session that
  is not stale yet but will be once the clock has moved on never settles either
  (`Convergence.RestIffNeverStale`).
- A task whose agent is unknown fails when it is promoted and is left running when it is submitted
  (`Outcomes.UnknownAgentDiffers`); where it is known the two end as the same row (`Outcomes.PromotedLikeSubmitted`).
- On an error event a running task keeps running so that the adapter can recover, while Pass A, which is to make
  up for missed events, ends it (`Outcomes.MissedErrorIsMadeUp`).
- Pass A's state sync does not write the end time. On a row read before the task ended it leaves a running
  task with an end time (`Interleaving.LateSyncRace`), and it is the only statement that can
  (`Interleaving.StatementKeepsEndedIff`).
- The usage backfill compares a creation time its query does not select, so all turns go to the first task
  (`Usage.UnselectedTimesOwnNothing`). That is right exactly for sessions all of whose turns precede their
  second task (`Usage.BackfillIsRightIff`); the loop itself is right when the times are given
  (`Usage.OwnerIsLastCreated`).
- The permission store empties its caches after each of its own writes, yet a refill whose query ran before the
  write and whose fill runs after the invalidation puts the old answer back for five minutes
  (`PermissionCaches.CrossingIsReached`); `PermissionCaches.FreshIffNoneCrossed` shows that nothing else
  makes an entry lag behind.
- The second prefix loop of the price lookup is commented "key is prefix of model" and tests the opposite
  (console/server/src/pricing.ts:61-64).
- The timeline's attempt to infer a start for a task without one shows no event as long as the events come in
  the order of their sequence numbers (`Timeline.UnknownStartIsEmpty`); in general it shows some exactly when
  the bucket before does not end with its latest event (`Timeline.UnknownStartIsEmptyIff`).
- The GPU collector keys totals by cluster and type but then keeps one per cluster, so a cluster with several
  types shows only the total listed last (`Gpu.ClusterShowsLast`).
- A failed schedule is retried at the next tick, but a tick takes the 50 earliest: as many that keep failing
  starve all later ones (`Starvation.FailuresStarve`).
- Data lines of one event are trimmed and joined without a line feed, and a line `data` without a colon is
  not seen, unlike section 9.2.6 of the WHATWG HTML standard. `SseParser.PayloadIsStandardIff` says for which
  blocks without carriage returns that makes no difference. Lines that end with a carriage return are legal
  there and are not understood here (`SseParser.CarriageReturnsHideEvents`).

## Model

| member | source | states |
|---|---|---|
| `TaskRows.Latest` | console/server/src/task-store.ts:136-142 | The newest row of a session among the given statuses: it is such a row and no newer row of the session is, and None means there is none |
| `TaskRows.LowestPending` | console/server/src/task-store.ts:431-434 | The lowest-id pending row of a session, and none exactly when the session has no pending row |
| `TaskStores.TaskStore.constructor` | console/server/src/task-store.ts:93-94 | A new store holds an empty table |
| `TaskStores.TaskStore.Create` | console/server/src/task-store.ts:96-116 | Appends one row with the next id; a running row gets a start time, a pending one does not; no other row changes |
| `TaskStores.TaskStore.CompleteManually` | console/server/src/task-store.ts:118-126 | Reports true exactly when the row exists and is running, busy, waiting for input or interrupted; then, and only then, that row is completed and stamped |
| `TaskStores.TaskStore.ReopenLatestForSession` | console/server/src/task-store.ts:160-175 | Returns the newest task; it is set running with its end time cleared and its first start time kept if it had ended, and nothing is written if it is active, pending or approved |
| `TaskStores.TaskStore.UpdateStatus` | console/server/src/task-store.ts:292-318 | The guarded write: on an ended row, running and waiting_input are let through only from error and completed (clearing the end time) and dropped from interrupted and cancelled; every other write replaces status and end time |
| `TaskStores.TaskStore.UpdateOutputPreview` | console/server/src/task-store.ts:327-342 | The preview is replaced by at most 200 characters, unless the row is completed, interrupted or cancelled |
| `TaskStores.TaskStore.RecordHumanDecision` | console/server/src/task-store.ts:348-363 | Acts exactly on a row pending approval: first decision kept, status approved, cancelled or waiting_input, end time stamped only for the first two |
| `TaskStores.TaskStore.AutoSetHumanDecision` | console/server/src/task-store.ts:384-392 | Sets the decision only when none is set |
| `TaskStores.TaskStore.SetGatewaySeqStart` | console/server/src/task-store.ts:320-325 | Sets the first sequence number only when none is set |
| `TaskStores.TaskStore.SetModelVersion` | console/server/src/task-store.ts:374-379 | Sets the model version only when none is set |
| `TaskStores.TaskStore.CancelPending` | console/server/src/task-store.ts:418-424 | Cancels and stamps the row exactly when it is pending, and reports 1 or 0 accordingly |
| `TaskStores.TaskStore.PromoteNextPending` | console/server/src/task-store.ts:426-440 | Takes the lowest-id pending task of the session to running with a fresh start time; no other row and no end time is touched |
| `EventHandler.PromoteNext` | console/server/src/sse-task-updater.ts:66-104 | The head of the queue goes to running if the session and agent are found and the send or the resume succeeds, otherwise to error with an end time and the matching text; nothing else changes |
| `EventHandler.HandleSessionError` | console/server/src/sse-task-updater.ts:221-312 | The seven-way error ladder equals the transition table: a running task keeps its status, lost conversations and other errors end it, recoverable errors and overflows follow the table; the note replaces an old one only where the table says so; returns true exactly when the queue is advanced |
| `EventHandler.HandleOtherError` | console/server/src/sse-task-updater.ts:265-310 | The last four rungs of the ladder, for a conversation that is there and no announced retry, follow the same table |
| `EventHandler.HandleAgentMessage` | console/server/src/sse-task-updater.ts:179-189 | Output is always stored, the preview only on rows that are not frozen, and the status follows the table |
| `EventHandler.HandleUserMessage` | console/server/src/sse-task-updater.ts:157-177 | Sequence start and decision are set once, and the status follows the table |
| `EventHandler.HandleSessionStarted` | console/server/src/sse-task-updater.ts:126-138 | The model version is set once; only an errored task is set running |
| `EventHandler.HandleStateChanged` | console/server/src/sse-task-updater.ts:140-155 | A completed task is reopened by running or busy; an automatic one without a decision is then marked overridden |
| `EventHandler.HandleSessionCompleted` | console/server/src/sse-task-updater.ts:204-219 | An automatic task completes and advances the queue; a manual one is set waiting for input at most |
| `EventHandler.HandleSessionInterrupted` | console/server/src/sse-task-updater.ts:314-326 | The task is interrupted and stamped; its preview stays as it was |
| `EventHandler.HandleQuietEvent` | console/server/src/sse-task-updater.ts:191-202 | Waiting for input becomes pending approval exactly when the visible output carries the marker; a failed tool call is counted |
| `EventHandler.ApplyEventToTask` | console/server/src/sse-task-updater.ts:110-338 | Handler and store guard composed refine one explicit transition table on the newest task of the session; the queue is promoted exactly when the event ended that task, and the promoted id is reported |
| `Outcomes.MentionedIff` | console/server/src/sse-task-updater.ts:195 | The marker is found anywhere in the text, in any mixture of upper and lower case, and nothing else is taken for it |
| `Outcomes.ApprovalIsAskedIff` | console/server/src/sse-task-updater.ts:179-202 | Across two events: after agent output, waiting for input becomes a request for approval exactly when that whole output has the marker, not only its first 200 characters |
| `Outcomes.OutputDecidesFirst` | console/server/src/sse-task-updater.ts:191-202 | The full output decides; the preview only for a task without output |
| `Outcomes.RunningSurvivesError` | console/server/src/sse-task-updater.ts:221-290 | A running task keeps its status and end time on every error; the kind of error decides the note in an empty preview and whether it is counted |
| `Outcomes.OtherErrorOutcome` | console/server/src/sse-task-updater.ts:221-312 | Any other task: a recoverable error keeps status and end time, an overflow hands an errored one back and leaves an interrupted one alone, everything else ends it in error |
| `Outcomes.PromotedOutcome` | console/server/src/sse-task-updater.ts:66-104 | A promoted task runs exactly when session and agent are known and the message or, failing that, the resume succeeds; else it is in error with the text of the first thing that failed |
| `Outcomes.PromotedLikeSubmitted` | console/server/src/routes/tasks.ts:222-238 | Where the agent is known, a queued and then promoted task ends as the same row as one submitted to the idle session |
| `Outcomes.UnknownAgentDiffers` | console/server/src/routes/tasks.ts:222-238 | Where the agent is unknown they differ: the promoted task fails, the submitted one is left running |
| `Outcomes.DecisionOutcome` | console/server/src/task-store.ts:348-363 | Approving ends a task that waits for approval, declining cancels it, overriding hands it back and stamps nothing; the first decision stays on record and no other task is touched |
| `Outcomes.DecidedOnce` | console/server/src/task-store.ts:348-363 | A second decision has no effect, whatever the first was |
| `Outcomes.OnlyOverriddenResumes` | console/server/src/task-store.ts:348-363 | After a decision the next user message sets the task running exactly when it was overridden |
| `Outcomes.CancellationOutcome` | console/server/src/task-store.ts:418-424 | Cancelling ends exactly a pending task and touches nothing else |
| `EventPaths.EventRowCases` | console/server/src/sse-task-updater.ts:110-338 | One event leaves every row in one of three ways: unchanged, the table's successor of the newest row, or the promoted head of the queue |
| `EventPaths.RecoveryReachesOnlyErrored` | console/server/src/sse-task-updater.ts:126-131 | session.started and message.user bring a task back to running if and only if it was errored; the interrupted task the comments speak of stays interrupted |
| `EventPaths.PartialContentIsDropped` | console/server/src/sse-task-updater.ts:314-323 | The partial text of an interruption never reaches the preview |
| `EventPaths.StoppedStep` | console/server/src/sse-task-updater.ts:110-338 | From interrupted or cancelled, one event leads only to interrupted, cancelled, completed, error or pending approval |
| `EventPaths.RevivalPassesAWaypoint` | console/server/src/task-store.ts:292-318 | In any event-only run a task that is interrupted or cancelled and later running or waiting was completed, in error or pending approval strictly in between |
| `EventPaths.NewestRow` | console/server/src/sse-task-updater.ts:110-338 | The newest row after an event is the table's successor: the promotion that may follow never touches it |
| `EventPaths.CancelledCanRevive` | console/server/src/sse-task-updater.ts:140-155 | Cancelled is not final: two events bring any cancelled automatic newest task back to running |
| `Reconciler.QueryTasksToReconcile` | console/server/src/task-reconciler.ts:40-46 | The query returns exactly the newest task in a reconcilable status of every session, each once; an older one is returned when newer ones have left the filter |
| `Reconciler.QueryPromotableSessions` | console/server/src/task-reconciler.ts:240-256 | The query returns exactly the sessions with a pending task and no running, busy or waiting one, each once |
| `Reconciler.ReconcileTask` | console/server/src/task-reconciler.ts:51-238 | The chain of early exits equals a table over gateway report, task status and completion mode, for status, end time and note |
| `Reconciler.ReconcileStatuses` | console/server/src/task-reconciler.ts:37-238 | The loop over the queried snapshot rewrites exactly the picked rows, each by the table, and no other row |
| `Reconciler.PassBStep` | console/server/src/task-reconciler.ts:258-264 | Promoting session after session from changing tables gives the same rows as promoting all of them from the first table |
| `Reconciler.PromoteQueued` | console/server/src/task-reconciler.ts:240-264 | The promotion loop rewrites exactly the lowest pending task of every session that has nothing at work |
| `Reconciler.ReconcileOnce` | console/server/src/task-reconciler.ts:25-265 | One tick is Pass A followed by Pass B on its result |
| `Outcomes.PickedIff` | console/server/src/task-reconciler.ts:40-45 | The picked task is the newest of its session among the five listed statuses |
| `Outcomes.NothingToSync` | console/server/src/task-reconciler.ts:53-77 | Unknown session or agent, or no usable state: the row stays as it is |
| `Outcomes.UnreachableOutcome` | console/server/src/task-reconciler.ts:64-77 | Gateway unreachable: a running or waiting task becomes interrupted with an end time, any other stays as it is |
| `Outcomes.WaitingOutcome` | console/server/src/task-reconciler.ts:80-146 | A gateway that waits for input or approval: the task takes that status; an end time is cleared exactly on the interrupted and errored ones |
| `Outcomes.RunningOutcome` | console/server/src/task-reconciler.ts:80-146 | A busy or running gateway: the task runs, unless it and the gateway have been silent for over thirty minutes, which ends it in error with a note of the whole minutes of silence |
| `Outcomes.CompletedOutcome` | console/server/src/task-reconciler.ts:148-167 | A completed gateway: an automatic task completes, a manual one is handed back and its end time cleared, unless it already waits for input |
| `Outcomes.InterruptedOutcome` | console/server/src/task-reconciler.ts:169-204 | An interrupted gateway: an automatic task runs again when the resume succeeds, every other one is interrupted |
| `Outcomes.ErrorOutcome` | console/server/src/task-reconciler.ts:206-234 | A gateway in error: an overflow hands the task back, anything else ends it in error; a task already in error stays as it is |
| `Outcomes.UnreachableCanBeCompleted` | console/server/src/task-reconciler.ts:64-77 | Across operations: a running or waiting task whose gateway is unreachable can still be completed by hand after the pass |
| `Outcomes.MissedEndIsMadeUp` | console/server/src/task-reconciler.ts:148-206 | A missed completion or interruption is made up for: Pass A leads a task at work to the status and end time the event would have given it |
| `Outcomes.MissedErrorIsMadeUp` | console/server/src/task-reconciler.ts:207-234 | For a missed error that holds exactly when the task is not running: the event alone leaves a running task running |
| `Outcomes.PassBOutcome` | console/server/src/task-reconciler.ts:240-264 | Row by row: exactly the first in line of an idle session starts, or ends in error when it cannot be delivered, and nothing else changes |
| `Convergence.PassAChangesOneRowPerSession` | console/server/src/task-reconciler.ts:40-45 | Pass A changes at most one row of a session, and only a reconcilable one |
| `Convergence.ChangesIff` | console/server/src/task-reconciler.ts:51-234 | A picked row is changed if and only if a guard on row and answer holds, written out for every gateway report |
| `Convergence.OlderKeptIff` | console/server/src/task-reconciler.ts:33-46 | A pass keeps every task of a session but the newest, as the comment promises, if and only if the task it picks there is the newest or gets an answer that changes nothing |
| `Convergence.SyncIsIdempotent` | console/server/src/task-reconciler.ts:78-234 | A row a calm pass leaves reconcilable is not changed by a second calm pass, at any later time |
| `Convergence.CalmPersists` | console/server/src/task-reconciler.ts:96-119 | A pass never makes a session stale that was not |
| `Convergence.PassASettlesOrShrinks` | console/server/src/task-reconciler.ts:37-238 | After a calm pass a session is settled or has exactly one reconcilable task less |
| `Convergence.SettledIsFixed` | console/server/src/task-reconciler.ts:37-238 | Calm passes leave a settled session as it is |
| `Convergence.PassAConverges` | console/server/src/task-reconciler.ts:37-238 | With answers fixed and the session never stale, Pass A is at its fixed point after as many passes as the session has reconcilable tasks |
| `Convergence.PassAConvergesEverywhere` | console/server/src/task-reconciler.ts:37-238 | The whole table is at its fixed point after n passes when no session has more than n reconcilable tasks |
| `Convergence.BoundIsTight` | console/server/src/task-reconciler.ts:40-45 | For every n there is a session of n tasks that needs all n passes, at whatever times they are made: each pass ends exactly one task, stamped with its own time |
| `Convergence.StaleNeverSettles` | console/server/src/task-reconciler.ts:96-132 | From a stale reading on, whatever the later readings are, every pass flips the picked task between running and error: after n passes it is as at the start exactly when n is even |
| `Convergence.RestIffNeverStale` | console/server/src/task-reconciler.ts:96-132 | Under every clock that does not run backwards, a session comes to rest for good if and only if, as it is before the first pass, it is stale at none of the clock's readings |
| `Convergence.PassBIsExact` | console/server/src/task-reconciler.ts:240-264 | Pass B takes exactly one task, the lowest, out of every session with a queue and nothing at work, to running or error by the delivery outcome, and leaves all other sessions as they are |
| `Ticks.TickRestsOrShrinks` | console/server/src/task-reconciler.ts:25-265 | After a whole tick, Pass A then Pass B, that does not find it stale, a session is at rest or twice its queued plus its reconcilable tasks have become fewer |
| `Ticks.TicksConverge` | console/server/src/task-reconciler.ts:25-265 | With answers and deliveries fixed and the session never found stale, that many ticks bring it to rest: its rows do not change any more, and what is still queued waits behind a task at work |
| `Ticks.StaleTickChanges` | console/server/src/task-reconciler.ts:96-132 | A whole tick that finds the session stale changes it |
| `Ticks.TicksRestIff` | console/server/src/task-reconciler.ts:25-265 | Under any clock, a session comes to rest under repeated whole ticks if and only if only finitely many of them find it stale |
| `Ticks.TalkingRests` | console/server/src/task-reconciler.ts:96-119 | While the gateway never reports a running session silent beyond the timeout, every session comes to rest within its bound |
| `ControlPlane.SubmitTask` | console/server/src/routes/tasks.ts:169-243 | A submitted task is queued behind work in progress, otherwise started, and ended in error when both send and resume fail |
| `ControlPlane.CompleteTask` | console/server/src/routes/tasks.ts:98-136 | Manual completion followed by promotion in the task's session; nothing when the row is not completable |
| `ControlPlane.SendMessage` | console/server/src/routes/messages.ts:54-63 | The newest task is reopened exactly when nothing of the session is at work |
| `Outcomes.SubmissionOutcome` | console/server/src/routes/tasks.ts:193-242 | One row is added with what was submitted: queued exactly when the session has a task at work, in error exactly when an idle session has a known agent and message and resume both fail, running otherwise |
| `Outcomes.CompletionOutcome` | console/server/src/routes/tasks.ts:98-136 | The task is completed and stamped exactly when it is running, busy, waiting for input or interrupted, also after the promotion that follows; otherwise the table stays as it is |
| `Outcomes.MessageOutcome` | console/server/src/routes/messages.ts:54-63 | A message reopens the newest task exactly when nothing of the session is at work and that task is completed, in error, interrupted or cancelled |
| `ControlPlane.StepTableOk` | console/server/src/task-store.ts:96-175 | Every operation of every writer obeys the row laws: identity columns fixed, write-once columns kept, no return to pending, manual completion only by hand, end time in step with the status, new rows pending, running or error |
| `ControlPlane.EndedInvariant` | console/server/src/task-store.ts:292-318 | In every table of every history an end time is present exactly when the status is completed, error, interrupted, cancelled or approved |
| `ControlPlane.WriteOnce` | console/server/src/task-store.ts:320-325 | Over every history session, prompt, mode and creation time never change, and decision, model version and first sequence number never change once set |
| `ControlPlane.ManualCompletionIsByHand` | console/server/src/task-store.ts:118-126 | In every history a completed manual task was completed by a manual completion of that very task, from a completable status, and has been completed in every table since |
| `ControlPlane.PromotionsIncrease` | console/server/src/task-store.ts:426-440 | Over every history the ids promoted for a session strictly increase, whichever writer promotes; so no task is promoted twice |
| `ControlPlane.PromotionShortensQueue` | console/server/src/task-store.ts:426-440 | Every promotion strictly lowers the number of pending tasks of its session |
| `OneAtWork.PassBKeepsSingleActive` | console/server/src/task-reconciler.ts:240-264 | Pass B keeps at most one working task per session |
| `OneAtWork.PassAKeepsSingleActiveIff` | console/server/src/task-reconciler.ts:37-238 | Pass A keeps it if and only if no picked task that is interrupted or in error, beside an older one at work, gets an answer that puts it back: running, busy or waiting; completed for a manual task; interrupted for an automatic one that can be resumed; overflow for an interrupted one |
| `OneAtWork.PromotionKeepsSingleActiveIff` | console/server/src/sse-task-updater.ts:66-104 | A bare promotion keeps it if and only if it does not deliver a queued task into a session at work |
| `OneAtWork.GuardsAreTable` | console/server/src/sse-task-updater.ts:125-326 | For a task not at work, two guards on event and row say when the event sets it to work and when it ends it |
| `OneAtWork.EventKeepsSingleActiveIff` | console/server/src/sse-task-updater.ts:110-338 | An event keeps it if and only if it does not, while another task of the session is at work, set the newest task to work or end it with another one queued and deliverable |
| `OneAtWork.RowsAppendedKeep` | console/server/src/scheduler.ts:33-96 | Submissions, firings in both modes and session creation always keep it, a created session being one without tasks |
| `OneAtWork.CompletionKeepsSingleActiveIff` | console/server/src/routes/tasks.ts:98-136 | Manual completion keeps it unless it completes an interrupted task beside a working one and then delivers a third |
| `OneAtWork.StepKeepsSingleActiveIff` | console/server/src/scheduler.ts:50-96 | For every writer of the table, one step keeps at most one working task per session if and only if a stated condition on table and operation does not hold |
| `OneAtWork.SingleActiveUntilFirstDoubling` | console/server/src/task-reconciler.ts:240-264 | Along every history the property holds up to the first doubling step and fails right after it |
| `OneAtWork.EventDoubles` | console/server/src/task-store.ts:136-142 | Reached from the empty table: agent output starts a queued task beside a running one |
| `OneAtWork.PassADoubles` | console/server/src/task-reconciler.ts:78-90 | Reached from the empty table: Pass A revives an interrupted task beside a running one |
| `OneAtWork.CompletionDoubles` | console/server/src/routes/tasks.ts:118-133 | Reached from the empty table: completing an interrupted task by hand delivers a queued one beside a running one |
| `OneAtWork.DecisionDoubles` | console/server/src/task-store.ts:348-363 | Reached from the empty table: an overridden task returns to waiting beside a running one |
| `Interleaving.HandlerRefines` | console/server/src/sse-task-updater.ts:110-338 | Every handler written out as its reads and single UPDATEs, in the source's order and with the store's re-reads, does to the row it first read, when nothing comes in between, what the transition table says |
| `Interleaving.HandlerIsSafe` | console/server/src/sse-task-updater.ts:110-338 | Whatever stale rows its reads return, a handler issues only statements that fit the task's completion mode and pair status and end time |
| `Interleaving.DeliveryIsSafe` | console/server/src/sse-task-updater.ts:72-103 | So does the delivery that follows a promotion |
| `Interleaving.PromotionIsStatements` | console/server/src/sse-task-updater.ts:66-104 | Promotion is its statements: the task leaves the queue, and the delivery, written out like the handlers, marks and annotates an undelivered one |
| `Interleaving.UserOperationsAreStatements` | console/server/src/task-store.ts:118-126 | A decision, a cancellation and the first half of a completion are one statement each |
| `Interleaving.CompletionIsStatements` | console/server/src/routes/tasks.ts:98-136 | Completing by hand is its statement, the taking of the next task from the queue, and the delivery program of that task |
| `Interleaving.OtherOperationsAreStatements` | console/server/src/routes/messages.ts:54-63 | A message that finds nothing at work is the reopening statement, and a submission that needs no second write is one insertion |
| `Interleaving.SyncIsStatement` | console/server/src/task-reconciler.ts:64-234 | Pass A's write to a picked row is the sync decided on that row as it is |
| `Interleaving.StatementKeepsLaws` | console/server/src/task-store.ts:292-440 | Every single statement, even one decided on a stale row, keeps the row laws |
| `Interleaving.StatementKeepsEndedIff` | console/server/src/task-reconciler.ts:140-147 | A statement keeps the end-time invariant if and only if it is not Pass A's state sync reaching a task that has ended meanwhile |
| `Interleaving.EndedUntilFirstHit` | console/server/src/task-reconciler.ts:140-147 | Over every interleaving of statements the invariant holds up to the first such hit and fails right after it |
| `Interleaving.ManualCompletionSurvives` | console/server/src/task-store.ts:118-126 | Over every interleaving of statements a completed manual task was completed by the manual-completion statement on that row, which took effect, and has been completed in every table since |
| `Interleaving.WriteOnceSurvives` | console/server/src/task-store.ts:320-325 | Over every interleaving of statements identity columns never change and write-once columns are written once |
| `Interleaving.PromotionsStillIncrease` | console/server/src/task-store.ts:426-440 | Over every interleaving of statements the ids taken from a session's queue strictly increase |
| `Interleaving.MovesAreStatements` | console/server/src/sse-task-updater.ts:110-338 | When handlers overlap, every move of one of them executes one issued statement on the table as it then is, or none |
| `Interleaving.SharedRunIsStatementRun` | console/server/src/sse-task-updater.ts:110-338 | The table of any run of overlapping handlers and other statements is that of a run of single statements, so the results above apply |
| `Interleaving.OverlapKeepsEnded` | console/server/src/task-store.ts:292-318 | However handlers, deliveries and other statements overlap, the end-time invariant holds as long as no late state sync is among them |
| `Interleaving.LateSyncRace` | console/server/src/task-reconciler.ts:140-147 | The race is reached from the empty table: completed by hand between query and update, a task ends up waiting for input with an end time |
| `StatementsAtWork.StatementKeepsSingleIff` | console/server/src/task-store.ts:96-440 | For every single statement, however stale its decision: it keeps at most one working task per session if and only if it does not set a row to work, take one from the queue or insert a running one where the session has another at work |
| `StatementsAtWork.SingleUntilFirstDoubling` | console/server/src/task-store.ts:96-440 | Over every interleaving of statements the property holds up to the first such statement and fails right after it |
| `StatementsAtWork.SubmissionsOverlap` | console/server/src/routes/tasks.ts:197-220 | Reached from the empty table: two submissions that both found the session idle both start their task |
| `Schedules.ScheduleStore.Create` | console/server/src/schedule-store.ts:101-137 | Stores the schedule enabled with its computed first date, or stores nothing when the trigger is rejected |
| `Schedules.ScheduleStore.Update` | console/server/src/schedule-store.ts:181-277 | Only patched columns change, the next date is recomputed from the merged trigger exactly when a trigger column is patched, and a rejected trigger leaves the table alone |
| `Schedules.ScheduleStore.ClaimDue` | console/server/src/schedule-store.ts:289-299 | At most limit distinct due schedules, earliest first; one left out is due no earlier than those returned and is left out only because the limit is reached |
| `Schedules.ScheduleStore.RecordFiring` | console/server/src/schedule-store.ts:301-326 | Records the firing and the next date; the schedule is disabled exactly when that is asked for and there is no next date; an unknown id changes nothing |
| `Schedules.FireSchedule` | console/server/src/scheduler.ts:23-97 | New sessions get a running task; a reused session gets a pending one behind work in progress, else a running one, ended in error when delivery fails; success is reported only for the non-failing paths |
| `Schedules.FireOnce` | console/server/src/scheduler.ts:107-142 | A tick attempts up to 50 due schedules once each: the tasks are those of the firings in order, each row is unchanged and still due on failure and advanced from its own firing time on success, and the tick breaks off only at a stored trigger that is rejected |
| `Schedules.FailedStaysDue` | console/server/src/scheduler.ts:122-125 | At every point of a tick, what has failed in it is stored as it was before the tick and is due at every later time |
| `FiringDates.RejectedIff` | console/server/src/schedule-store.ts:69-96 | A trigger is rejected exactly when the column it needs is missing or unusable |
| `FiringDates.IntervalDueIff` | console/server/src/schedule-store.ts:78-83 | After a firing an enabled interval schedule is due exactly when 1000 times its seconds have passed |
| `FiringDates.CronDueIff` | console/server/src/schedule-store.ts:84-92 | A cron schedule is due again exactly from the date its own expression gives in its own time zone |
| `FiringDates.OnceDueIff` | console/server/src/schedule-store.ts:74-77 | A one-shot schedule is created due from its run date on if that is still to come, and else never |
| `FiringDates.FirstIntervalIff` | console/server/src/schedule-store.ts:78-83 | The first firing of an interval schedule comes one interval after its creation |
| `FiringDates.DueAgainIff` | console/server/src/scheduler.ts:107-142 | Over every run of ticks: after a success an interval schedule is due again exactly one interval later, whatever failed in between |
| `FiringDates.CreatedOutcome` | console/server/src/schedule-store.ts:101-137 | A new schedule is switched on, has never fired and keeps every column it was given |
| `FiringDates.RecordedOutcome` | console/server/src/schedule-store.ts:301-326 | A firing is recorded with its time; exactly a one-shot schedule without a further date is switched off |
| `FiringDates.PatchOutcome` | console/server/src/schedule-store.ts:181-277 | A patched column takes the value of the patch, any other keeps its own |
| `FiringDates.RedatedIff` | console/server/src/schedule-store.ts:235-267 | Touching a trigger column dates the schedule anew from the moment of the update, or is rejected; touching none keeps its date |
| `FiringDates.FiringOutcome` | console/server/src/scheduler.ts:23-97 | Whether a firing adds a task, in which session, with which status, times and note, and whether it counts as a success, from the inputs alone |
| `Starvation.ClaimedIff` | console/server/src/schedule-store.ts:289-299 | A due schedule whose date no other due one shares is claimed by a tick if and only if fewer due schedules than the limit have an earlier date |
| `Starvation.PrecededIsNotClaimed` | console/server/src/schedule-store.ts:289-299 | However equal dates are ordered, a schedule with at least as many due ones before it as the limit is not claimed |
| `Starvation.FailuresStarve` | console/server/src/scheduler.ts:107-125 | Over every run of ticks, fifty schedules that keep failing starve every schedule with a later date: no tick ever claims it |
| `Schedules.CreatedIsWellFormed` | console/server/src/schedule-store.ts:105-137 | A schedule stored by create can be advanced at every time, and a one-shot one waits for its own date or for nothing |
| `Schedules.StoredIsWellFormed` | console/server/src/schedule-store.ts:101-326 | So can every schedule of every reachable table, over any history of creations, accepted and rejected updates, and ticks |
| `Schedules.UpdateKeepsWellFormed` | console/server/src/schedule-store.ts:253-267 | Any accepted patch keeps a schedule advanceable at every time and a one-shot date either null or its own run date |
| `Schedules.TickKeepsWellFormed` | console/server/src/schedule-store.ts:301-326 | So does any tick |
| `Schedules.IntervalSpacing` | console/server/src/schedule-store.ts:78-83 | Over every run of ticks, successful firings of an interval schedule are at least its interval apart |
| `Schedules.WindowBound` | console/server/src/scheduler.ts:107-142 | A window of L milliseconds holds at most floor(L / interval) + 1 successful firings |
| `Schedules.OnceFiresOnce` | console/server/src/scheduler.ts:138-140 | Over every run of ticks a well-formed one-shot schedule, as every stored one is, fires successfully at most once and is disabled afterwards |
| `SseParser.SplitDecomposes` | console/server/src/sse-task-updater.ts:32-37 | Blocks, separators and remainder rebuild the buffer, and the remainder holds no blank line |
| `SseParser.SplitIsUnique` | console/server/src/sse-task-updater.ts:32-37 | No other decomposition into clean blocks and an unbroken remainder exists |
| `SseParser.SplitResumes` | console/server/src/sse-task-updater.ts:32-37 | Splitting a buffer early and carrying the remainder over gives the same blocks and remainder as splitting once |
| `SseParser.TrimIsBare` | console/server/src/sse-task-updater.ts:40-45 | What trimming leaves neither begins nor ends with white space |
| `SseParser.TrimIsCore` | console/server/src/sse-task-updater.ts:40-45 | Trimming takes white space off both ends and nothing else |
| `SseParser.SkippedBlock` | console/server/src/sse-task-updater.ts:40-56 | A block without data or with a payload that does not parse gives no event and does not disturb the others |
| `SseParser.CollectDataLines` | console/server/src/sse-task-updater.ts:40-45 | The trimmed payloads of exactly the lines that start with data:, in order |
| `SseParser.ExtractCompleteSseEvents` | console/server/src/sse-task-updater.ts:25-59 | The loop returns the events of exactly the complete blocks, in order, skipping those that do not parse, and the unique remainder |
| `SseParser.ReadStream` | console/server/src/routes/proxy.ts:892-900 | However a stream is cut into chunks, the reading loop ends with the events and the remainder of one parse of the whole stream |
| `SseParser.GluedCarries` | console/server/src/sse-task-updater.ts:40-48 | A block of nonempty lines with exactly one data line is clean and carries that line's trimmed payload, whatever the other lines are |
| `SseParser.RoundTrip` | console/server/src/sse-task-updater.ts:25-59 | Clean blocks that carry one payload each come back in order, each once, with nothing left over |
| `SseParser.ServerRoundTrip` | console/server/src/routes/proxy.ts:1005-1007 | So do the frames the server writes, with or without an id line |
| `SseParser.JoiningIsStandardIff` | console/server/src/sse-task-updater.ts:40-48 | For the lines of a block that start with data: (and no others): their trimmed texts are joined as they would be with the line feeds of section 9.2.6 of the WHATWG HTML standard if and only if there is at most one |
| `SseParser.PayloadIsStandardIff` | console/server/src/sse-task-updater.ts:40-48 | For every block without a carriage return: the payload, or its absence, is the standard's if and only if the block has no data field by the standard, or a single one, written with a colon, whose value after at most one leading space neither begins nor ends with white space |
| `SseParser.CarriageReturnsHideEvents` | console/server/src/sse-task-updater.ts:32-37 | A stream whose line feeds all follow carriage returns, legal by the standard, never yields an event |
| `SseParser.DataLinesAreConcatenated` | console/server/src/sse-task-updater.ts:48 | Two data lines give the concatenation of their trimmed texts |
| `Permissions.UserGroupsAreMemberships` | console/server/src/permission-store.ts:145-162 | A group is listed for a user exactly when the membership exists and the group is active |
| `Permissions.AgentLevelsAreRows` | console/server/src/permission-store.ts:175-189 | Under the table's unique key the map holds exactly the rows of the table |
| `Permissions.DashboardGrantsAreRows` | console/server/src/permission-store.ts:254-269 | Under the unique key a group opens a dashboard exactly when the table has a row that allows it |
| `Permissions.DashboardAllowedIff` | console/server/src/permission-store.ts:271-285 | A user's allowed dashboards are exactly those that a row of an active group of the user's allows |
| `Permissions.BestIgnoresOrder` | console/server/src/permission-store.ts:200-208 | The resolved level depends only on which groups there are, not on their order or repetition |
| `Permissions.BestIsMonotone` | console/server/src/permission-store.ts:200-208 | More groups never give a lower level |
| `Permissions.LevelIsHighestGrant` | console/server/src/permission-store.ts:192-209 | The level is the highest-ranked grant that reaches the user through an active group, and is missing exactly when no grant does |
| `Permissions.LevelByOrder` | console/server/src/permission-store.ts:192-209 | The level by name: interactive before read-only, before read-only with input, before the summary |
| `Permissions.ChangedMembers` | console/server/src/permission-store.ts:127-143 | Exactly the added membership appears and the removed one is gone |
| `Permissions.ChangedAccess` | console/server/src/permission-store.ts:233-251 | Setting a level replaces that of its group and agent, removing drops it, and all other rows stay |
| `Permissions.ChangedDashboards` | console/server/src/permission-store.ts:287-304 | The same for dashboards, which also go with their group |
| `Permissions.ChangedActive` | console/server/src/permission-store.ts:86-115 | Which groups are active after each write |
| `Permissions.ChangedKeepsUnique` | console/server/src/permission-store.ts:233-304 | Every write keeps the unique keys of both permission tables |
| `Permissions.AddMemberNeverLowers` | console/server/src/permission-store.ts:127-134 | Adding a member never lowers anyone's level for any agent |
| `PermissionCaches.NextIsSound` | console/server/src/permission-store.ts:54-313 | Every step of every call keeps it true that each cache entry holds the answer of a query made in a version in force at the time, and that own writes made since it was filled still have their invalidation to come |
| `PermissionCaches.StalenessIsBounded` | console/server/src/permission-store.ts:54-79 | Over every interleaving of calls and outside writes, whatever a call returns is the answer of a version that was in force at most five minutes plus the duration of its refill ago for a cached answer, and at most the duration of the refill ago for a refilling call |
| `PermissionCaches.ResolutionIsRecent` | console/server/src/permission-store.ts:192-209 | A level resolved from two maps got at different moments, with any steps in between, is the level of the memberships in one version and the permissions in another, each within its own bound |
| `PermissionCaches.CurrentIff` | console/server/src/permission-store.ts:308-313 | With no write of the store under way, an entry has the present version if and only if its refill crossed no write and no other process wrote since |
| `PermissionCaches.CrossedIffWriteBetween` | console/server/src/permission-store.ts:74-78 | A refill crosses a write exactly when a write's statement is executed between its query and its fill |
| `PermissionCaches.FreshIffNoneCrossed` | console/server/src/permission-store.ts:86-142 | When all writes go through the store, then whenever none is under way all entries have the version of a fresh query if and only if none of their refills crossed a write |
| `PermissionCaches.AnswerIsFresh` | console/server/src/permission-store.ts:86-142 | The value of an answer is that of a fresh query as long as no other process and no write of the store to a table the query reads came after it, even if its refill crossed other writes |
| `PermissionCaches.CrossingIsReached` | console/server/src/permission-store.ts:175-189 | A refill that crosses a permission change is reached, and serves the old levels a whole five minutes after the store has invalidated its caches |
| `PermissionStores.PermissionStore.constructor` | console/server/src/permission-store.ts:50-58 | A new store has empty caches |
| `PermissionStores.PermissionStore.Execute` | console/server/src/permission-store.ts:233-240 | The statement of one of the nine writes changes the database and no cache |
| `PermissionStores.PermissionStore.Invalidate` | console/server/src/permission-store.ts:308-313 | The invalidation empties all four caches and changes nothing else |
| `PermissionStores.PermissionStore.OutsideWrite` | console/server/src/permission-store.ts:60-62 | A write by another process leaves the caches as they are |
| `PermissionStores.PermissionStore.StartGetAllGroups` | console/server/src/permission-store.ts:71-76 | Up to its await: the cached groups exactly when the entry has not expired, otherwise the query's answer, with no cache changed |
| `PermissionStores.PermissionStore.FinishGetAllGroups` | console/server/src/permission-store.ts:77-78 | After its await: the answer is cached for five minutes from now, whatever has happened since the query; the other caches stay |
| `PermissionStores.PermissionStore.StartGetUserGroupsMap` | console/server/src/permission-store.ts:146-154 | The same for the user-to-groups map, built row by row from the answer |
| `PermissionStores.PermissionStore.FinishGetUserGroupsMap` | console/server/src/permission-store.ts:155-161 | Its fill |
| `PermissionStores.PermissionStore.StartGetAllAgentPermissions` | console/server/src/permission-store.ts:176-181 | The same for the agent-to-levels map |
| `PermissionStores.PermissionStore.FinishGetAllAgentPermissions` | console/server/src/permission-store.ts:182-188 | Its fill |
| `PermissionStores.PermissionStore.StartGetAllDashboardPermissions` | console/server/src/permission-store.ts:255-260 | The same for the dashboard grants |
| `PermissionStores.PermissionStore.FinishGetAllDashboardPermissions` | console/server/src/permission-store.ts:261-266 | Its fill |
| `PermissionStores.PermissionStore.Write` | console/server/src/permission-store.ts:86-142 | A write that nothing interrupts leaves the change in the database and every cached answer current |
| `PermissionStores.PermissionStore.GetAllGroups` | console/server/src/permission-store.ts:70-79 | A call that nothing interrupts returns the groups of a version in force within five minutes plus the refill, at no other cache's expense; of the present one if all cached answers were current |
| `PermissionStores.PermissionStore.GetUserGroupsMap` | console/server/src/permission-store.ts:145-162 | The same for the user-to-groups map |
| `PermissionStores.PermissionStore.GetAllAgentPermissions` | console/server/src/permission-store.ts:175-189 | The same for the agent-to-levels map |
| `PermissionStores.PermissionStore.GetAllDashboardPermissions` | console/server/src/permission-store.ts:254-268 | The same for the dashboard grants |
| `PermissionStores.PermissionStore.GetUserAgentLevel` | console/server/src/permission-store.ts:192-209 | Without interruption: the level resolved from two versions, each that recent when it was fetched; a fresh query's level if all cached answers were current |
| `PermissionStores.PermissionStore.GetUserAgentLevels` | console/server/src/permission-store.ts:212-231 | An entry for exactly the agents for which the single-agent resolution gives a level, with that level, from equally recent versions |
| `PermissionStores.PermissionStore.GetUserDashboardAccess` | console/server/src/permission-store.ts:271-285 | Exactly the dashboards some group of the user allows, from equally recent versions |
| `PermissionStores.LevelFromMaps` | console/server/src/permission-store.ts:196-208 | With both maps at hand, from whatever moments, the lookup yields the level the maps resolve to |
| `Permissions.AllowedIsMonotone` | console/server/src/permission-store.ts:276-283 | More groups never take a dashboard away |
| `Availability.GroupAtIsLastRecord` | console/server/src/report-store.ts:105-112 | The reference meaning: a host's group at an instant is that of its last record at or before it, and none before its first |
| `Availability.TimeIsMeasure` | console/server/src/report-store.ts:114-126 | Clipping segments to a window and summing them measures exactly the instants of the window spent in the given groups |
| `Availability.DayTimeIsMeasure` | console/server/src/report-store.ts:105-126 | A day of the report is the measure of that day in the host's own log; cutting the log at the end of the range changes nothing |
| `Availability.NamedIff` | console/server/src/report-store.ts:53-62 | Which status names fill which of the six columns |
| `Availability.WholeDayCounts` | console/server/src/report-store.ts:114-126 | A host with one status since before the day spends the 24 hours in the total, in the column that names its status, and in no other |
| `Availability.FleetAdds` | console/server/src/report-store.ts:114-126 | The report counts every host once |
| `Availability.DayIsConserved` | console/server/src/report-store.ts:114-126 | All groups of a day sum to the part of the day after the host's first record, 24 hours once it is known |
| `Availability.RangeTelescopes` | console/server/src/report-store.ts:100-104 | Over [from, to] the days sum to the time from the later of the first record and the start of the range to the end of the range |
| `Availability.FleetIsNonNegative` | console/server/src/report-store.ts:115-126 | Every column of a day is non-negative, over all hosts |
| `Availability.GroupsAddUp` | console/server/src/report-store.ts:129-135 | The six columns and the unlisted statuses add up to the total column, over all hosts |
| `Availability.PercentIsBounded` | console/server/src/report-store.ts:136-139 | The availability percentage lies between 0 and 100 before rounding |
| `Availability.PercentIsShare` | console/server/src/report-store.ts:136-139 | The percentage times all time that is not deallocated is 100 times the available time, and it is 0 when there is no such time |
| `Usage.GetPricing` | console/server/src/pricing.ts:50-67 | Exact name, else the first listed prefix of the name, else the first listed extension of it, else the default |
| `Usage.PriceLookup` | console/server/src/pricing.ts:50-67 | The order of the lookup: the listed name, else the first listed beginning of the name, else the first listed name it begins, else the four default prices |
| `Usage.MillionsCost` | console/server/src/pricing.ts:72-84 | Each of the four kinds of token is charged its own price per million |
| `Usage.CostAdds` | console/server/src/pricing.ts:72-84 | Cost is additive in token counts |
| `Usage.FindOwner` | console/server/src/usage-store.ts:630-636 | The loop with its break finds the last of the leading tasks created at or before the turn, else the first task |
| `Usage.OwnerIsLastCreated` | console/server/src/usage-store.ts:630-636 | With ascending creation times that is the last task created by then: all later ones were created after the turn |
| `Usage.UnselectedOwnerIsRightIff` | console/server/src/usage-store.ts:598-636 | As the query is written, without the creation time, the owner found for a turn is the right one if and only if the session has one task or the turn precedes the second |
| `Usage.BackfillIsRightIff` | console/server/src/usage-store.ts:598-650 | As written, the attribution of a whole session is the right one if and only if every turn precedes its second task |
| `Usage.UnselectedTimesOwnNothing` | console/server/src/usage-store.ts:598-602 | Without creation times every turn goes to the first task |
| `Usage.AttributeTurns` | console/server/src/usage-store.ts:624-650 | The nested loops file every turn under its owner and model, adding the four counts and the turn |
| `Usage.PutAddsWorth` | console/server/src/usage-store.ts:640-649 | Adding tokens to one model's entry adds exactly their worth to the task |
| `Usage.AttributionConserves` | console/server/src/usage-store.ts:624-650 | Summed over the tasks, each of the four token kinds, the cost and the number of turns are those of the turns, for all models and for any selection of models |
| `Usage.KindsAreConserved` | console/server/src/usage-store.ts:640-649 | Counted kind by kind, attribution loses and invents no token |
| `Usage.UsageStore.UpsertTaskUsage` | console/server/src/usage-store.ts:76-137 | The usage row is replaced; when entries are filed under their model names the stored model rows are exactly the reported ones, also on re-runs that drop models, and their costs sum to the stored total; other tasks are untouched |
| `Usage.StoredCostIsTotal` | console/server/src/usage-store.ts:107-122 | The per-model costs stored for a report add up to its total cost |
| `Usage.UsageStore.StoreAttribution` | console/server/src/usage-store.ts:652-672 | Every task of the session gets its attributed turns, totals, cost and model list, total_tokens as the sum of the four kinds, and model rows for exactly its attributed models with their tokens and cost; tasks without turns get zeros and no model row |
| `Usage.BackfillTurns` | console/server/src/usage-store.ts:624-672 | Over a whole session the stored totals and costs of the tasks add up to the tokens and cost of the turns, and the stored rows of every single model to that model's turns, on first runs and re-runs |
| `Usage.KindsAreStored` | console/server/src/usage-store.ts:652-672 | After a backfill each stored token column sums to the tokens of that kind in the turns |
| `Usage.StoredModelIsAttributed` | console/server/src/usage-store.ts:663-671 | The stored rows of one model, summed over the tasks, are what attribution gave the tasks for that model |
| `Usage.BackfillSession` | console/server/src/usage-store.ts:596-681 | No tasks: nothing. Several tasks with turns: split as above. Otherwise the session report is stored whole for the first task, and for no other, exactly when that task has no usage yet |
| `Gpu.BuildSnapshots` | console/server/src/gpu-collector.ts:137-216 | The live loops compute the rows defined by the maps of one instant |
| `Gpu.CollectTimes` | console/server/src/gpu-collector.ts:229-231 | The timestamps of the total series, each once |
| `Gpu.BuildSnapshotsAt` | console/server/src/gpu-collector.ts:236-312 | The separately written loop body of the backfill yields the live rows of the slice at that timestamp, with no unhealthy count |
| `Gpu.BuildSnapshotsFromRange` | console/server/src/gpu-collector.ts:221-316 | The backfill refines the live collector: each timestamp of the totals is visited once and contributes exactly the live rows of its slice |
| `Gpu.ClusterKeys` | console/server/src/gpu-collector.ts:173-183 | The collected clusters are those of the totals and the nonempty ones of the used metric, each once and under its own name |
| `Gpu.OneRowPerCluster` | console/server/src/gpu-collector.ts:173-214 | Every nonempty cluster of the totals or the used metric gets exactly one row, and no other cluster gets any |
| `Gpu.RowShows` | console/server/src/gpu-collector.ts:147-213 | Each column of a row shows its own metric: counts not below zero, the summed utilization in whole GPUs and not above the active ones, the average in percent |
| `Gpu.RowShowsZero` | console/server/src/gpu-collector.ts:187-193 | A cluster without samples in a metric shows zero there |
| `Gpu.ColumnIsLast` | console/server/src/gpu-collector.ts:162-171 | A metric shows the value of the last sample of the cluster, and its default when there is none |
| `Gpu.UsedIsSum` | console/server/src/gpu-collector.ts:155-160 | The used count of a cluster is the sum over its samples |
| `Gpu.TotalIsLast` | console/server/src/gpu-collector.ts:147-153 | The total of a cluster and type is that of its last sample |
| `Gpu.ClusterShowsLast` | console/server/src/gpu-collector.ts:173-177 | A cluster with totals of several types shows the one listed last, not their sum |
| `Gpu.UnscheduledShows` | console/server/src/gpu-collector.ts:178-183 | A cluster known to the used metric alone is shown with type unknown and no GPUs |
| `Gpu.BackfilledRowShows` | console/server/src/gpu-collector.ts:236-312 | A backfilled row shows of each metric the sample at its own timestamp |
| `Gpu.RowsInBounds` | console/server/src/gpu-collector.ts:194-200 | In every row 0 <= sum_gpu_util <= active_gpus, 0 <= avg_gpu_util <= 100 and idle_gpus >= 0, whatever the metrics claim |
| `Timeline.SortedIsPermutation` | console/client/src/components/Timeline.tsx:28-30 | The bucket order is a permutation of the tasks in creation order |
| `Timeline.SortIsStable` | console/client/src/components/Timeline.tsx:28-30 | Tasks created at the same time keep their order |
| `Timeline.FindEnd` | console/client/src/components/Timeline.tsx:54-61 | The end of a bucket is the first known start of a later task, none if no later task has one |
| `Timeline.GroupEventsByTask` | console/client/src/components/Timeline.tsx:21-70 | The result has exactly one bucket per task, and it holds the events between the task's start and the next known start |
| `Timeline.WithinHolds` | console/client/src/components/Timeline.tsx:63-65 | A bucket holds exactly the events of the list between its start and its end |
| `Timeline.UnknownStartIsEmptyIff` | console/client/src/components/Timeline.tsx:37-51 | For events in any order: the bucket of a later task without a known start is empty if and only if the bucket before it ends with its latest event |
| `Timeline.UnknownStartIsEmpty` | console/client/src/components/Timeline.tsx:37-51 | With events strictly ordered by sequence number, a later task without a known start gets an empty bucket, although the code tries to infer a start from the bucket before |
| `Timeline.BucketsPartition` | console/client/src/components/Timeline.tsx:32-67 | With known starts not going down, the buckets in task order are exactly the events from the first start on, each once |
| `Timeline.TimesShown` | console/client/src/components/Timeline.tsx:32-67 | In general an event is shown once if it reaches the first start, and once more for every drop in the starts that passes over it |
| `Timeline.PartitionIffNonDecreasing` | console/client/src/components/Timeline.tsx:32-67 | Grouping is a partition for all event lists if and only if the known starts never go down in creation order |

## Left out

- PostgreSQL, HTTP, event transport, timers, logging and failed database calls: tables are values in memory and every statement succeeds.
- Deletion of sessions and gaps in ids: rows are never removed, and ids are creation order. Equal creation times within a session are not modelled.
- Several clock readings inside one handler: each operation reads the clock once, except the scheduler tick, which takes one reading per recorded firing.
- Overlapping ticks of the scheduler and edits between its ticks: the interval, one-shot and starvation results are about non-overlapping ticks under a clock that does not run backwards.
- Cron evaluation: the next date is a parameter, assumed later than its argument and defined independently of the clock.
- JSON parsing, the decision regular expressions and the matching of error texts: parameters and flags on events.
- The environment variable for the stale timeout: the default of 30 minutes is used.
- Characters are Unicode scalar values rather than UTF-16 units, and letter case in the approval marker is ASCII only.
- SseParser.PayloadIsStandardIff: is stated for blocks without carriage returns, because with them the standard also draws the boundaries of events differently; the stream whose lines all end that way is covered by `SseParser.CarriageReturnsHideEvents`.
- The other fields and the byte order mark of the event stream format.
- Floating point, `NaN` and SQL rounding: real numbers, integer microseconds and values before rounding.
- The refresh of the price cache: all costs of one call use one snapshot of the price table.
- Model names that coincide with properties every JavaScript object inherits, and the order JavaScript gives to integer-like names: the per-model entries are a plain ordered map.
- Usage.BackfillSession: does not model a database failure half-way through storing a split session, after which the source falls back to the session report.
- Group columns that no computation reads, and the ordering of groups by name.
- Writes of the permission store that the database rejects: they change nothing and do not invalidate.
- Gpu.BuildSnapshotsFromRange: takes the runtime's default sort as an arbitrary permutation, so the order of timestamps is not stated (the default sort compares numbers as text).
- Schedule names, owners and deletion, task titles, submitters, parent tasks and signature hashes: columns no modelled step reads.
- The remaining report, usage and utilization queries, authorization, sharing, the session store and the gateway client: string-built SQL and thin wrappers that would add only easy members.
- React components other than the grouping function, the compose renderer, the MCP servers and the delegation code: plumbing over unseen packages.
