# Minerider: verified model of the swarm runtime

This project models the concurrent core of Minerider, a Minecraft client that runs swarms of
bots under Lua scripts, and proves properties of that model for every input, every run and
every reachable state.

- **Delivery** (`Queues`, `Events`, `Inbox`, `Callbacks`, `Workers`, `Delivery`, `Passes`,
  `Shutdown`).
  A worker's three-lane queue is specified by the history of pushes since the last drain and proved to
  deliver exactly what that history demands. On top of it, a swarm of workers, action tasks,
  other producers, time and shutdown is a state machine whose steps are as small as other
  threads can observe; a push is split at its test of the closed flag, its queue lock, its
  counter and its failure record, and a worker can break off at any point. Over every
  interleaving no action result is lost or duplicated, which callbacks are settled is known
  exactly, a callback hears exactly what fell due to it, and a worker shuts down within a
  bounded number of its own steps.
- **Supervision** (`Backoff`, `Supervisor`). The reconnect loop and the callers that send it
  commands, again split wherever another thread can get in between.
- **Startup** (`Startup`). Workers and the orchestrator start together or not at all.
- **Configuration** (`Registry`). The builder keeps two mutually inverse maps, and what it
  builds can always be spawned.
- **Script health** (`Handlers`). Which bots are disabled, as a property of what happened.
- **Codecs and arithmetic** (`ServerHash`, `Packing`, `ChunkBatch`, `LogText`, `Collision`).

Where the source updates things in place the model is a class or a method with loops, proved
against functions of the history or of the input. Time, elapsed durations, what a script does
when it is called, and which thread runs next are inputs or nondeterministic steps.

Eleven expectations, most of them written down in the source's comments, are not what the code
does. The model follows the code and states where the two part, with a concrete run or input,
and the exact condition under which the expectation holds:

- That no queue accepts what nobody will drain (src/lua/dispatcher.rs:83-84): a result can be
  stranded at a worker that has returned (`Delivery.AResultCanBeStranded`). It is, exactly when
  its push takes the lock after that worker's last drain, and then for good
  (`Delivery.StrandedExactlyWhen`). The test of the closed flag does not prevent that, because
  it comes before the lock (`Inboxes.EnqueuesExactlyWhenSeenOpen`).
- That every callback hears something: one can be thrown out by a registration that finds 4096
  callbacks pending (`Delivery.ACallbackCanBeSilenced`; src/lua/api/bot.rs:277-281 says so), or
  be pending when a script error or a panic ends the worker without cleanup
  (`Delivery.AScriptErrorSilencesCallbacks`). At a worker that has ended these are exactly the
  callbacks that were never invoked (`Delivery.UnheardExactlyWhen`).
- That the reported peak is a combined depth the queue had (src/lua/queue.rs:307-309): it can
  exceed every depth there was (`Queues.PeakDepthCanExceedEveryDepth`). It is such a depth
  exactly when the lanes peaked together (`Queues.PeakDepthBoundsEveryDepth`).
- That the high lane carries the documented critical items only (src/lua/event.rs:205-210): it
  carries five more kinds of event, named in `Events.HighLaneIsCriticalKindsAndMore`.
- That a command of a session that has ended fails, saying that the session was replaced
  (src/core/supervisor.rs:400-403). It can run in a later session
  (`Supervision.ACommandCanOutliveTheSessionItSaw`), exactly when the generation moved between
  the caller's two reads (`Supervision.RanInTheObservedSessionExactlyWhen`), though it never
  leaves the session it was stamped for. And it can hear that nothing is connected
  (`Supervision.ALateCommandHearsNotConnected`). Which answer it gets is stated exactly by
  `Supervision.AnswersFollowTheStatus` if it is taken from the queue, by
  `Supervision.DroppedFollowTheStatus` if it is dropped with it, and by
  `Supervision.RefusalsFollowTheQueue` if it never gets in.
- That the maximum bounds every delay (src/core/supervisor.rs:82-83): jitter is added on top of
  the cap (`Backoff.JitterCanExceedMaximum`); `Backoff.MaximumHoldsExactlyWhen` says when it
  still fits.
- That a swarm starts only while nothing has asked it to stop: a script can call stop before
  connect_all, and the swarm then starts with the shutdown flag up
  (`Startup.AStoppedSwarmCanStart`; `Startup.FlagIsUpExactlyWhen` says when the flag is up).
- That a removed bot id is never reused (src/lua/registry.rs:332-334): it comes back when a
  script asks for it (`Registry.ARequestedIdComesBack`), and the greatest id also comes back
  automatically (`Registry.ARemovedIdCanComeBack`). The contract of
  `Registry.SwarmRegistryBuilder.AddBot` says exactly when: a used id was asked for, or none was
  asked for and the greatest id was used.
- That a worker reports exactly once (src/lua/worker.rs:110-111): it can report the barrier and
  then a failure (`Startup.AWorkerCanReportTwice`); `Startup.ReportsCounted` says how often it
  reports and when that is once.
- That a cut log text is within its budget (src/lua/error.rs:17): the mark is added on top
  (`LogText.TheMarkCanExceedTheBudget`), and it fits exactly in the case of
  `LogText.WithinBudgetExactlyWhen`.
- That the report counts disabled bots (src/lua/worker.rs:310): it can count a bot twice
  (`Handlers.ABotCanBeCountedTwice`), because a disabled bot's action results still reach its
  handlers. The invariant of `Handlers.HandlerHealth` says by how much: once for every later
  failure that again ends a long enough run.

## Model

| member | source | states |
|---|---|---|
| Queues.PriorityQueue.constructor | src/lua/queue.rs:174-186 | an empty queue meets the invariant |
| Queues.PriorityQueue.Push | src/lua/queue.rs:188-242 | appends one envelope to the history; the outcome is determined by the history alone; lanes, statistics and peaks stay in agreement with everything pushed and delivered so far, so that pushes are accepted, dropped or coalesced and what was accepted is delivered or still queued |
| Queues.PriorityQueue.PushHigh | src/lua/queue.rs:190-209 | a full high lane rejects the newest and keeps the rest |
| Queues.PriorityQueue.PushCoalescible | src/lua/queue.rs:210-226 | a pending state for the same bot and kind is replaced in its place in the order |
| Queues.PriorityQueue.PushLow | src/lua/queue.rs:227-240 | a full low lane evicts its oldest; a capacity of 0 holds one envelope, and only then accepted and delivered counts part |
| Queues.PriorityQueue.AppendLow | src/lua/queue.rs:228-239 | contents, counters and peak of the low lane after one append |
| Queues.PriorityQueue.DrainReady | src/lua/queue.rs:248-259 | delivers the first high-capacity high items in order, then the newest envelope of each key by first appearance, then the last low-capacity low items, and leaves nothing behind |
| Queues.TakeInOrder | src/lua/queue.rs:252-256 | every slot is taken once, in key order, and the map ends empty |
| Queues.PriorityQueue.Depth | src/lua/queue.rs:261-263 | the depth is the length of what a drain would deliver |
| Queues.PriorityQueue.PeakDepth | src/lua/queue.rs:310-318 | the sum of the greatest depth each lane ever had |
| Queues.KeysListed | src/lua/queue.rs:211-214 | a key is in the order list exactly when an update for it arrived |
| Queues.KeysInFirstAppearanceOrder | src/lua/queue.rs:213-214 | keys are ordered as their first updates arrived |
| Queues.KeysDistinct | src/lua/queue.rs:213-214 | the order list has no duplicates |
| Queues.LatestIsLast | src/lua/queue.rs:212 | the value delivered for a key is the one that arrived last |
| Queues.CoalescesPush | src/lua/queue.rs:210-226 | the order list stays equal to the map's keys, each mapped to its newest envelope |
| Queues.ReadyByLane | src/lua/queue.rs:244-259 | a batch is high, then coalescible, then low items |
| Queues.LaneInArrivalOrder | src/lua/queue.rs:188-242 | the i-th envelope of a lane is the one at the i-th arrival position of that priority, whatever else arrived in between |
| Queues.ArrivalsOfLane | src/lua/queue.rs:188-242 | these positions increase, so a lane keeps the order of arrival |
| Queues.ArrivalsComplete | src/lua/queue.rs:188-242 | and they are exactly the positions of that priority, so a lane misses nothing |
| Queues.HighLaneKeeps | src/lua/queue.rs:190-209 | the high lane is the first so many of its arrivals, element by element |
| Queues.LowLaneKeeps | src/lua/queue.rs:227-240 | the low lane is the last so many of its arrivals, at least one, element by element |
| Queues.DisplacedExactlyWhen | src/lua/queue.rs:210-226 | of two pending updates the second replaces the first exactly when bot and kind are the same |
| Queues.PriorityQueue.InsertSlot | src/lua/queue.rs:211-226 | only the slot of its own key changes |
| Queues.PeakDepthBoundsEveryDepth | src/lua/queue.rs:307-318 | the reported peak bounds every combined depth there was, and is one of them exactly when the lanes peaked together |
| Queues.PeakDepthCanExceedEveryDepth | src/lua/queue.rs:307-318 | a queue that reports a peak of two and never held more than one envelope |
| Events.HighLaneIsCriticalKindsAndMore | src/lua/event.rs:201-259 | everything on the documented list travels in the high lane, and so do exactly five kinds of event that are not on it |
| Events.HudKindsDisplaceEachOther | src/lua/event.rs:148-167 | two pending HUD updates of one bot are delivered as one exactly when they share a kind name |
| Events.LatestOnly | src/lua/event.rs:201-259 | exactly which bot events travel in the middle lane, where only the latest counts |
| Events.OtherItems | src/lua/event.rs:66-77 | which lane every other item travels in, and which items can settle a callback, for which request |
| Events.LifecycleNames | docs/lua_api_reference.md:389-394 | connection events have the names of the documented table |
| Events.SessionNames | docs/lua_api_reference.md:395-399 | the ends and the beginning of a session have the documented names |
| Events.WorldNames | docs/lua_api_reference.md:400-409 | health, chat, player, entity, time and weather events have the documented names |
| Events.PresentationNames | docs/lua_api_reference.md:410-413 | presentation events have the documented names |
| Events.ScoreboardNames | docs/lua_api_reference.md:414-415 | scoreboard and team events have the documented names |
| Events.HudAndInventoryNames | docs/lua_api_reference.md:399-419 | HUD, window and inventory events have the documented names |
| Inboxes.PushAloneIsItsSteps | src/lua/dispatcher.rs:98-144 | the steps of a push, back to back, are the uninterrupted push |
| Inboxes.EnqueuesExactlyWhenSeenOpen | src/lua/dispatcher.rs:106-121 | whatever happens in between, a push enqueues exactly when it saw the queue open, even into a queue closed since |
| Inboxes.WorkerQueue.constructor | src/lua/dispatcher.rs:73-81 | an open, empty inbox |
| Inboxes.WorkerQueue.Push | src/lua/dispatcher.rs:98-144 | closed, overflowing and ordinary pushes, each with the whole new inbox; the overflow counter stays equal to the high lane's own count of drops |
| Inboxes.PushFieldByField | src/lua/dispatcher.rs:98-151 | every field of the inbox after a push into a closed, full or open queue, with the error recorded for each kind of item |
| Inboxes.WorkerQueue.ReportOverflow | src/lua/dispatcher.rs:122-141 | counts the overflow, records who lost a result, tries one diagnostic |
| Inboxes.WorkerQueue.RecordFailure | src/lua/dispatcher.rs:146-151 | only items that can settle a callback are recorded |
| Inboxes.WorkerQueue.TakeFailedRequests | src/lua/dispatcher.rs:157-164 | hands over every recorded failure once |
| Inboxes.WorkerQueue.WaitForBatch | src/lua/dispatcher.rs:183-199 | a batch is everything that was ready and nothing ready stays behind, whether woken or timed out |
| Inboxes.WorkerQueue.Close | src/lua/dispatcher.rs:201-204 | changes the flag only |
| Inboxes.AnnouncedOnce | src/lua/dispatcher.rs:273-295 | a completed action is announced once to its owner and once to the worker that issued it, once in all if they are the same, and to nobody else, each with its own kind of item; who the owner is, `Inboxes.OwnerOf` says |
| Inboxes.OwnersRepeat | src/lua/dispatcher.rs:252-254 | the first bots belong to the workers of the same number, and a bot and the one as many further on as there are workers share their owner |
| Inboxes.OwnerOf | src/lua/dispatcher.rs:252-254 | of n workers, bot k times n plus i belongs to worker i |
| Inboxes.ConsecutiveOwnersDiffer | src/lua/dispatcher.rs:252-254 | as many consecutive bots as there are workers have distinct owners |
| Inboxes.DispatcherHandle.constructor | src/lua/dispatcher.rs:240-246 | request ids start at 1 |
| Inboxes.DispatcherHandle.AllocateRequestId | src/lua/dispatcher.rs:263-265 | ids count up by one |
| Inboxes.DispatcherHandle.NextBotSeq | src/lua/dispatcher.rs:256-261 | each bot has its own sequence |
| Inboxes.DispatcherHandle.PushTo | src/lua/dispatcher.rs:283-295 | a push into one inbox leaves all others alone |
| Inboxes.DispatcherHandle.DispatchActionResult | src/lua/dispatcher.rs:283-295 | what each inbox holds afterwards, per worker: the result at its owner, for the first bots the worker of the same number, a completion at the worker that issued the action if that is another, nothing anywhere else |
| Callbacks.SettleBalanced | src/lua/worker.rs:570-579 | settling keeps every registered callback in exactly one place: pending, invoked once, or evicted |
| Callbacks.RegisterBalanced | src/lua/api/bot.rs:282-314 | registering under a fresh id keeps that balance, eviction included |
| Callbacks.SettleAllExactly | src/lua/worker.rs:449-472 | settling a list of pending requests invokes each of them once and touches no other |
| Callbacks.CallbackRegistry.constructor | src/lua/worker.rs:204-209 | an empty registry |
| Callbacks.CallbackRegistry.Resolve | src/lua/worker.rs:570-579 | removes and invokes the callback of a request, if it is here, and touches nothing else |
| Callbacks.CallbackRegistry.FindOldest | src/lua/api/bot.rs:292-298 | nothing pending was registered earlier |
| Callbacks.CallbackRegistry.Add | src/lua/api/bot.rs:282-314 | with 4096 pending an oldest one is evicted, otherwise nobody; exactly one callback is added; the balance is kept |
| Callbacks.CallbackRegistry.ResolveOverflowed | src/lua/worker.rs:588-607 | exactly the pending callbacks with a recorded loss are removed, and each is invoked once |
| Callbacks.CallbackRegistry.SweepTimeouts | src/lua/worker.rs:829-862 | a pending callback is removed and invoked once if the time exceeds its registration time plus the timeout, and left alone otherwise |
| Callbacks.CallbackRegistry.ShutdownCleanup | src/lua/worker.rs:449-472 | nothing stays pending and every callback ever registered has been invoked exactly once unless it was evicted |
| Workers.ReadyIsFaithful | src/lua/worker.rs:421-428 | a drained batch holds exactly the results that were queued, unaltered |
| Workers.MoveKeepsTokens | src/lua/worker.rs:417-442 | no step of a worker creates, loses or duplicates the news about a request |
| Workers.MoveKeepsInv | src/lua/worker.rs:404-472 | every step of the script, the dispatch loop and the cleanup keeps the worker's invariant, and so does breaking off at any point; what each of the loops gets done is stated in `Passes` |
| Workers.MoveKeepsTold | src/lua/worker.rs:570-607 | a callback is told the outcome of its own action, that it was lost, that it waited too long, or that the worker shuts down |
| Passes.NoOverdueCallbackIsMissed | src/lua/worker.rs:829-862 | in every run, during a sweep every pending callback that was overdue when it began is still ahead on its list, and after it nobody pending was overdue when it began |
| Passes.OverdueCallbacksAreTold | src/lua/worker.rs:829-862 | in every run a callback that was overdue when a sweep began has been removed and invoked exactly once when the sweep is over, and was told how long it had waited |
| Passes.LostAndLeftCallbacksAreTold | src/lua/worker.rs:449-607 | in every run a callback whose loss was on record when a batch ended has been told so, exactly once, when the records are worked through; one that was left at the end has been told of the shutdown when the worker returns |
| Passes.WhatIsDueIsHeard | src/lua/worker.rs:417-472 | in every run what fell due to a callback is what it hears, exactly once, or it is still ahead on the list being worked through; the exceptions are a broken worker and an eviction during the batch with its result |
| Passes.WhatIsHeardWasDue | src/lua/worker.rs:417-472 | in every run a callback hears nothing but what fell due to it: the outcome that was drained, the loss on record, the time it had waited, or the shutdown |
| Passes.DuePromised | src/lua/worker.rs:417-472 | from the moment something falls due, every step of every thread keeps it ahead of the callback until it is told |
| Passes.PromiseMoved | src/lua/worker.rs:417-472 | no step of the worker drops or alters what is ahead of a callback |
| Passes.SweepMoved | src/lua/worker.rs:829-862 | no step of the worker makes a sweep miss an overdue callback |
| Passes.DrainedLater | src/lua/dispatcher.rs:183-199 | in every run the result of an action is never in the batch at hand while its callback is still being made |
| Passes.RegistrationIsKept | src/lua/api/bot.rs:304-311 | in every run a callback is registered exactly by the step that registers it, with that step's bot and time, and keeps both while it is pending |
| Passes.ClosedExactlyWhen | src/lua/worker.rs:417-420 | in every run a queue is closed exactly when the runtime closed it or its worker came to the head of the loop with the shutdown flag up |
| Passes.PassesVisitAllStations | src/lua/worker.rs:417-442 | in every run every pass of the loop waits, decides, dispatches, resolves, sweeps and fires once, in this order, and the loop is left after a decision only |
| Delivery.PushConserves | src/lua/dispatcher.rs:98-151 | each step of a push moves its parcel and neither loses nor copies it |
| Delivery.AnnounceCarries | src/lua/dispatcher.rs:283-295 | an announcing task starts with one parcel for each worker concerned |
| Delivery.EveryRunKeepsInv | src/lua/worker.rs:404-472 | the invariant of the whole swarm holds after every run, including runs in which workers break |
| Delivery.NoResultIsLost | src/lua/dispatcher.rs:98-164 | after every run the news about a completed action is in exactly one place at each worker concerned: in flight, high lane, batch, failure list, taken failures, or handled |
| Delivery.CallbacksSettleExactlyOnce | src/lua/worker.rs:417-472 | in every run a callback is invoked at most once, truthfully and at the worker that registered it, and exactly once by the time that worker has returned from its loop unless it was evicted |
| Delivery.UnheardExactlyWhen | src/lua/worker.rs:404-408 | at a worker that has ended, a callback was never invoked exactly when a registration into a full registry threw it out or it was pending when the worker broke |
| Delivery.OrphanedExactlyWhen | src/lua/worker.rs:404-408 | what is pending at a broken worker is what was pending when it broke |
| Delivery.AScriptErrorSilencesCallbacks | src/lua/worker.rs:404-408 | a run in which a top-level script error leaves the only callback unheard |
| Delivery.NewsIsOnItsWay | src/lua/worker.rs:581-607 | a pending callback whose action completed always has exactly one piece of news still coming |
| Delivery.EvictionExactlyWhenFull | src/lua/api/bot.rs:291-303 | a callback is evicted exactly when a registration found the registry full and chose it |
| Delivery.ACallbackCanBeSilenced | src/lua/api/bot.rs:277-303 | a run in which a callback is neither pending nor ever invoked |
| Delivery.AResultCanBeStranded | src/lua/dispatcher.rs:83-122 | a run that ends with a result in the closed queue of a worker that has returned |
| Delivery.QueuedExactlyWhen | src/lua/dispatcher.rs:118-121 | in every run a queue holds the news about a request exactly when it was pushed, with room in the lane, since the last drain |
| Delivery.StrandedExactlyWhen | src/lua/dispatcher.rs:83-121 | a result is stranded at a worker that has ended exactly when its push took the lock after that worker's last drain, and it then stays there however the run goes on |
| Delivery.CounterFollowsTheLane | src/lua/dispatcher.rs:118-123 | in every run the high lane's drops are the overflow counter plus the pushes that stand between their drop and their count |
| Delivery.TheStateFollowsTheRun | src/lua/dispatcher.rs:263-295 | in every run actions are numbered as they are issued, belong to the worker and bot they were issued for and have the outcome they completed with; time is the number of ticks and the shutdown flag is up exactly when the shutdown has begun |
| Shutdown.MoveUsesUp | src/lua/worker.rs:417-472 | with the shutdown flag up every step of a worker uses up its potential, and registering a callback adds nothing |
| Shutdown.RegistryIsBounded | src/lua/api/bot.rs:291-303 | in every run at most 4096 callbacks are pending at a worker |
| Shutdown.SealedAfter | src/lua/dispatcher.rs:106-111 | once the queue is closed and no push is past its test of the flag, nothing is accepted any more |
| Shutdown.ShutdownIsBounded | src/lua/worker.rs:417-472 | however a run goes on from there, the worker makes at most as many steps as its potential, and one more for each result lost to it meanwhile |
| Shutdown.NeverStuck | src/lua/worker.rs:417-472 | a worker that has not ended can always make a step |
| Shutdown.ShutdownEnds | src/lua/worker.rs:417-442 | a worker that has made that many steps has ended |
| Delivery.EndedWorkerIsIdle | src/lua/worker.rs:404-442 | a worker that has returned or broken makes no move |
| Backoff.DelaysNeverShrink | src/core/supervisor.rs:208-223 | without jitter and with a multiplier of at least 1, delays never shrink with the attempt and never exceed the maximum |
| Backoff.DelaysAreGeometric | src/core/supervisor.rs:209-211 | without jitter the first delay is the initial one, each further attempt multiplies it, and the maximum cuts off |
| Backoff.JitterIsBounded | src/core/supervisor.rs:212-221 | jitter only lengthens, to at most the maximum times one plus four fifths of the clamped fraction |
| Backoff.MaximumHoldsExactlyWhen | src/core/supervisor.rs:208-223 | when the maximum bounds the delay, and only then |
| Backoff.JitterCanExceedMaximum | src/core/supervisor.rs:208-223 | a policy and an attempt that wait longer than the maximum |
| Backoff.DecisionsAreSeparate | src/core/supervisor.rs:183-193 | each class of failure has its own setting and no other changes its decision; with reconnecting off everything stops |
| Backoff.JitterInFifths | src/core/supervisor.rs:212-221 | jitter is the clamped fraction times the attempt modulo five, in fifths |
| Backoff.JitterOnTop | src/core/supervisor.rs:208-223 | the delay is the lesser of the exponential and the maximum, and the jitter's share of that on top |
| Supervision.StepKeepsInv | src/core/supervisor.rs:900-1090 | every step of the supervisor and of its callers keeps the invariant |
| Supervision.EveryRunKeepsInv | src/core/supervisor.rs:900-1090 | the invariant holds after every run |
| Supervision.CommandsNeverCrossAReconnect | src/core/supervisor.rs:942-976 | sessions are numbered 1, 2, 3, and every forwarded command went to the session of its stamp, inventory requests to the session they were made for, however late they were enqueued |
| Supervision.HandedOnlyToALiveSession | src/core/supervisor.rs:1062-1071 | a command is handed over only in a live session, and its caller is told so in the same step |
| Supervision.AcceptedCommandsAreAnsweredOnce | src/core/supervisor.rs:427-434 | every accepted command is answered at most once, with success exactly if it was forwarded, and has been answered when run has returned, also if it came after the last rejecting loop |
| Supervision.AbandonAnswersAll | src/core/supervisor.rs:434 | dropping the receiver answers every queued command once and none with success |
| Supervision.ReturnLeavesStopped | src/core/supervisor.rs:900-985 | every return leaves the status Stopped and nothing unanswered; the queue never exceeds its bound |
| Supervision.RetriesWithinBudget | src/core/supervisor.rs:997-1014 | with a limit of n and r resets at most n times r plus 1 retries are scheduled; `Supervision.BudgetIsUsedUp` says that no fewer are made before giving up |
| Supervision.BudgetIsUsedUp | src/core/supervisor.rs:997-1014 | in every run the supervisor has given up only if exactly as many retries as the limit were scheduled since the last reset; a failure that is to be retried schedules one exactly while fewer were |
| Supervision.DelaysGrowBetweenResets | src/core/supervisor.rs:1011-1017 | in every run retries are numbered on from the one before, or from one again exactly where the counter was reset; without a reset delays never shrink, and none exceeds the maximum |
| Supervision.OutcomesAreJustified | src/core/supervisor.rs:997-1010 | in every run an outcome has its reason: cancelled on request; exhausted or not retried with the run's last failure as its cause, which the policy retries or stops at; with reconnecting off there is at most one session and no retry; what exhausted means, `Supervision.BudgetIsUsedUp` counts |
| Supervision.RanInTheObservedSessionExactlyWhen | src/core/supervisor.rs:408-435 | a command runs in the session its caller observed exactly when the generation did not move between the two reads, and never in an earlier one |
| Supervision.ACommandCanOutliveTheSessionItSaw | src/core/supervisor.rs:396-415 | a run in which a command sent while session 1 was active runs in session 2 |
| Supervision.AnswersFollowTheStatus | src/core/supervisor.rs:1062-1071 | in every run the answer to a command taken from the queue is decided by the status at that moment: forwarded or severed in its own live session, replaced in another or while the end is being published, not connected while connecting or waiting, stopped after the end |
| Supervision.DroppedFollowTheStatus | src/core/supervisor.rs:434 | commands dropped with the receiver hear what the status says, in order, and nobody else hears anything |
| Supervision.RefusalsFollowTheQueue | src/core/supervisor.rs:427-433 | in every run a stamped command is refused exactly when run has returned or exactly 64 commands wait, each with its own error |
| Supervision.CallsFollowTheLoop | src/core/supervisor.rs:408-420 | in every run what a caller's two reads lead to: a stamp with the current session exactly in a live one, and each refusal with its own error exactly when it applies |
| Supervision.CancellationStopsSessions | src/core/supervisor.rs:900-936 | once cancelled, however the run goes on, at most the one connection attempt already past the test becomes a session, and from the head of the loop none |
| Supervision.ALateCommandHearsNotConnected | src/core/supervisor.rs:400-403 | a run in which a command of an ended session hears not connected |
| Basics.EnoughIsAll | src/lua/runtime.rs:394-403 | as many distinct reporters as there are workers are all the workers |
| Startup.StartupBarrier.constructor | src/lua/worker.rs:65-70 | no verdict yet |
| Startup.StartupBarrier.Publish | src/lua/worker.rs:85-94 | becomes Started if there was no verdict yet, and stays otherwise |
| Startup.StartupBarrier.Abort | src/lua/worker.rs:100-106 | becomes Aborted with this reason if there was no verdict yet, and stays otherwise |
| Startup.CollectStartupReports | src/lua/runtime.rs:388-446 | succeeds at the first moment when all distinct workers have reported; otherwise the first event that is no such report decides the error, and which error that is |
| Startup.GatheredTaken | src/lua/runtime.rs:394-403 | the report that completes the set means that every worker has called connect_all |
| Startup.EveryRunKeepsInv | src/lua/runtime.rs:293-383 | the invariant of the protocol holds after every run, whatever scripts do |
| Startup.StartupIsAllOrNothing | src/lua/runtime.rs:293-474 | when Started is about to be published every worker is blocked at the barrier and every bot is spawned; a failed startup ends with no bot, the barrier aborted with that failure and every queue closed; the registry is never missing |
| Startup.AStoppedSwarmCanStart | src/lua/api/swarm.rs:269-279 | a run that publishes Started with the shutdown flag up |
| Startup.FlagIsUpExactlyWhen | src/lua/api/swarm.rs:269-279 | in every run the shutdown flag is up exactly when the orchestrator aborts or a script has called stop |
| Startup.EveryoneHearsTheSame | src/lua/worker.rs:72-78 | all released workers heard the one verdict |
| Startup.TheFirstFailureCounts | src/lua/runtime.rs:293-446 | in every run the failure that a startup ends with is the first that the orchestrator met with, whatever came later |
| Startup.VerdictIsFinal | src/lua/worker.rs:85-106 | whatever happens later, the verdict stays |
| Startup.ReportsCounted | src/lua/worker.rs:109-121 | in every run a worker sends one report per call of connect_all and one more if it fails, which happens at most once; exactly when that makes one report |
| Startup.AWorkerCanReportTwice | src/lua/worker.rs:109-121 | a run in which one worker reports the barrier and then a failure |
| Registry.SwarmRegistryBuilder.constructor | src/lua/registry.rs:201-210 | an empty builder meets the invariant |
| Registry.SwarmRegistryBuilder.AddServer | src/lua/registry.rs:212-240 | accepts exactly a new name of 1 to 256 bytes with a host and a view distance of 2 to 32; a rejected call changes nothing and says why; an accepted one adds exactly that server |
| Registry.SwarmRegistryBuilder.AllocateId | src/lua/registry.rs:248-267 | the lowest free id from the counter up, or an error exactly when none is left |
| Registry.SwarmRegistryBuilder.PickId | src/lua/registry.rs:303-312 | the automatic id is free on the first try unless ids have run out, and the counter moves past the id |
| Registry.SwarmRegistryBuilder.AddBot | src/lua/registry.rs:269-324 | failed calls change nothing; an accepted one adds one bot under a new id and keeps the two maps inverse, all references valid and all limits respected; which error is reported, in order; the id had been used and removed before exactly when a used one was asked for, or none was asked for and the greatest id had been used |
| Registry.BotProblemMeans | src/lua/registry.rs:269-324 | which error a new bot gets, each exactly when its own test fails and those before it pass, with the limits of 64, 256 and 20000 written out |
| Registry.SwarmRegistryBuilder.RemoveBot | src/lua/registry.rs:337-345 | undoes an addition in both maps; the builder stays consistent exactly when no group names the bot |
| Registry.AutomaticIsNew | src/lua/registry.rs:326-336 | the next automatic id was given to some bot before, removed ones included, exactly when the greatest 32-bit number was, and then it is that number |
| Registry.ARemovedIdCanComeBack | src/lua/registry.rs:326-345 | a builder that hands out the greatest id automatically, removes it and hands it out again |
| Registry.ARequestedIdComesBack | src/lua/registry.rs:303-309 | a builder that gives a removed small id to the next bot that asks for it |
| Registry.SwarmRegistryBuilder.AddGroup | src/lua/registry.rs:347-381 | exactly when a group is accepted, and with which error it is refused |
| Registry.SwarmRegistryBuilder.AddGroupOfBots | src/lua/api/swarm.rs:88-178 | the bulk call adds all bots under consecutive ids and their group, exactly when all are acceptable, or restores both maps |
| Registry.SwarmRegistryBuilder.AddBulk | src/lua/api/swarm.rs:120-176 | the same for any distinct names |
| Registry.SwarmRegistryBuilder.GroupOrRollBack | src/lua/api/swarm.rs:158-176 | the group is added exactly when its name is new, or the batch is removed again |
| Registry.SwarmRegistryBuilder.AddAll | src/lua/api/swarm.rs:120-157 | all bots of the batch or none |
| Registry.SwarmRegistryBuilder.AddWhilePossible | src/lua/api/swarm.rs:120-143 | bots are added up to the first that is not acceptable |
| Registry.SwarmRegistryBuilder.RollBack | src/lua/api/swarm.rs:149-153 | removing the batch restores both maps exactly |
| Registry.SwarmRegistryBuilder.Build | src/lua/registry.rs:383-390 | a built registry is consistent |
| Registry.InverseIsUnique | src/lua/registry.rs:310-324 | the bot map determines the username map |
| Registry.InverseIsBijective | src/lua/registry.rs:310-324 | no two bots share a name, and the maps have the same size |
| Registry.NumberedNamesDistinct | src/lua/api/swarm.rs:122-123 | a prefix with a running decimal number never repeats |
| Registry.DecimalDenotes | src/lua/api/swarm.rs:122-123 | the running number is written in decimal digits that denote it, without leading zeros |
| Registry.BulkBotAt | src/lua/api/swarm.rs:120-143 | bot k of a bulk call has the k-th id, the k-th name and label, and the server and proxy of the call, and its name leads back to it |
| Registry.SpawnAllBots | src/lua/runtime.rs:482-560 | all bots or none with the offending bot; every client has the host, port and view distance of its own server, its own username and its own proxy |
| Registry.BuiltRegistriesSpawn | src/lua/runtime.rs:494-513 | on a consistent registry with the same profile ids the validation pass cannot fail |
| Handlers.HandlerHealth.constructor | src/lua/worker.rs:385-386 | no bot has a streak |
| Handlers.HandlerHealth.RecordBotHandlerOutcome | src/lua/worker.rs:543-561 | each counter is the bot's current streak; a bot is disabled exactly when its outcomes contain a run of failures as long as the threshold (0 acts like 1); other bots are untouched |
| Handlers.HandlerHealth.RunHandlersFor | src/lua/worker.rs:771-827 | an event that invoked nothing changes nothing; any other counts once, as a failure exactly if some call failed |
| Handlers.HandlerHealth.DispatchBotEvent | src/lua/worker.rs:619-646 | a disabled bot's events change nothing |
| Handlers.HandlerHealth.FireTimer | src/lua/api/timers.rs:171-200 | timers count for their bot and are silent for a disabled one |
| Handlers.RunsGrowAtTheEnd | src/lua/worker.rs:553-557 | a new run of failures can only end at the newest outcome |
| Handlers.EndsWithStreak | src/lua/worker.rs:553-556 | the newest outcome ends a run of n failures exactly when it failed and the streak before was long enough |
| Handlers.Counted | src/lua/worker.rs:543-561 | counting one outcome keeps every bot's counter and flag in agreement with its history |
| Handlers.Reported | src/lua/worker.rs:556-558 | the report grows by one for each failure that ends a long enough run |
| Handlers.ABotCanBeCountedTwice | src/lua/worker.rs:556-558 | two failing events after which the report counts two and one bot is disabled |
| ServerHash.TwoComplementInPlace | src/auth/server_hash.rs:52-60 | the value of the bytes becomes its negative modulo 256 to the length |
| ServerHash.ComplementIsInvolution | src/auth/server_hash.rs:52-60 | doing it twice gives the bytes back |
| ServerHash.ValueIsInjective | src/auth/server_hash.rs:52-60 | at one length the value determines the bytes |
| ServerHash.HighBit | src/auth/server_hash.rs:35 | the high bit says in which half of the range the value lies |
| ServerHash.HexDenotesValue | src/auth/server_hash.rs:40 | the two digits per byte denote the value |
| ServerHash.CanonicalIsUnique | src/auth/server_hash.rs:41-47 | equal numbers have one canonical numeral: no padding, no minus zero |
| ServerHash.SignedHexDigest | src/auth/server_hash.rs:34-48 | a canonical numeral that parses back to the two's-complement value of the digest |
| ServerHash.DigestIsInjective | src/auth/server_hash.rs:34-48 | at one length two texts are equal exactly when the digests are |
| ServerHash.SignedValueIsInjective | src/auth/server_hash.rs:34-48 | at one length the two's-complement value determines the bytes |
| Packing.PackIndices | src/bin/shared_world_benchmark.rs:578-588 | every value reads back masked to its width, and unchanged if it fits |
| Packing.PackedValueInArithmetic | src/minecraft/world.rs:449-459 | reading a slot is dividing the word by a power of two and taking the remainder modulo another |
| Packing.ShrIsQuotient | src/minecraft/world.rs:458 | shifting right divides by the power of two |
| Packing.MaskIsModulo | src/minecraft/world.rs:458 | masking is the remainder modulo the power of two |
| Packing.PackOne | src/bin/shared_world_benchmark.rs:582-586 | writing one value keeps all earlier ones |
| Packing.WriteSlot | src/bin/shared_world_benchmark.rs:585 | or-ing into a free slot places the value and stays within the word |
| Packing.Arithmetic | src/bin/shared_world_benchmark.rs:583-584 | the position arithmetic of the model is division and remainder |
| Packing.Product | src/bin/shared_world_benchmark.rs:584 | the shift arithmetic of the model is the product |
| Packing.MaskIsRemainder | src/bin/shared_world_benchmark.rs:581 | the mask keeps exactly the values below the power of two |
| Packing.WidthFor | src/bin/shared_world_benchmark.rs:745 | the chosen width fits every value and no smaller one does |
| Packing.Materialize | src/bin/shared_world_benchmark.rs:741-743 | reads all entries of a section; what reading means, `Packing.GetInArithmetic` says |
| Packing.MaterializeAndSet | src/bin/shared_world_benchmark.rs:740-750 | the result reads as the old container with exactly one index changed; what reading means, `Packing.GetInArithmetic` says |
| Packing.GetInArithmetic | src/minecraft/world.rs:112-122 | an entry in ordinary arithmetic: the single value, the quotient and remainder of the right word, or the palette entry at that position, and nothing past the last word or the palette |
| Packing.PackPalette | src/minecraft/world.rs:115-119 | a container packed from positions in a palette reads as the palette's entries |
| Packing.PaletteRoundTrip | src/bin/shared_world_benchmark.rs:740-750 | a section packed with a palette and then materialised with one change reads as the palette's entries with that change |
| Packing.WordsInArithmetic | src/bin/shared_world_benchmark.rs:580 | the number of words is the quotient rounded up |
| ChunkBatch.ChunkBatchSizeCalculator.constructor | src/minecraft/chunk_batch.rs:37-44 | the initial estimate of 2,000,000 and weight 1 |
| ChunkBatch.ChunkBatchSizeCalculator.RecordBatch | src/minecraft/chunk_batch.rs:51-64 | on the fields: the new estimate is the weighted mean of the old one and the sample, cut to between a third and three times the old one; it moves towards the sample; the weight is one more than the number of non-empty batches, at most 49; an empty batch changes nothing |
| ChunkBatch.FoldAverages | src/minecraft/chunk_batch.rs:55-63 | the weighted mean without division, and on which side of the old estimate it lies |
| ChunkBatch.FirstBatch | src/minecraft/chunk_batch.rs:55-63 | one chunk in 6,000,000 nanoseconds moves the initial estimate to 4,000,000 |
| ChunkBatch.ChunkBatchSizeCalculator.DesiredChunksPerTick | src/minecraft/chunk_batch.rs:68-70 | positive, and exactly fills the budget of 7,000,000 at the estimate |
| ChunkBatch.EstimatePositive | src/minecraft/chunk_batch.rs:51-64 | the estimate is positive after every history |
| ChunkBatch.EstimateWithinObserved | src/minecraft/chunk_batch.rs:51-64 | the estimate stays within any bounds on the initial value and the samples |
| ChunkBatch.EstimateGrowthBounded | src/minecraft/chunk_batch.rs:56-63 | after k samples, k at most 49, at most the initial value times (k+2)(k+3)/6 |
| ChunkBatch.FasterNeverAsksForFewer | src/minecraft/chunk_batch.rs:51-70 | pointwise faster histories never lower the wanted chunks per tick |
| LogText.ByteTestIsExact | src/lua/error.rs:31 | in well-formed text (section 4 of RFC 3629) the byte test finds exactly the decoded boundaries |
| LogText.BoundaryNearby | src/lua/error.rs:31-33 | a boundary is never more than three bytes back |
| LogText.CutIsValid | src/lua/error.rs:34 | a cut at a boundary leaves whole characters on both sides |
| LogText.TruncateForLog | src/lua/error.rs:26-37 | keeps the longest whole-character prefix within the budget, at most three bytes short of it, adds the mark exactly when the text was over budget, and returns well-formed text |
| LogText.WithinBudgetExactlyWhen | src/lua/error.rs:17-37 | a cut text with its mark stays within the budget exactly when the budget ends just before the last byte of a character of four bytes |
| LogText.TheMarkCanExceedTheBudget | src/lua/error.rs:17-37 | four bytes cut to a budget of three become six |
| Collision.ListShapes | scripts/generate_collision_data.py:13-22 | succeeds exactly when the ids are 0, 1, 2 and so on, and lists each normalised shape at its id |
| Collision.MaxState | scripts/generate_collision_data.py:45 | the greatest state id |
| Collision.FillBlock | scripts/generate_collision_data.py:48-58 | writes one block's shapes over its range and nothing else, or says why not |
| Collision.FillStates | scripts/generate_collision_data.py:46-58 | every state holds what the last block covering it says; the first bad block decides the error |
| Collision.CloseGaps | scripts/generate_collision_data.py:60-61 | refuses exactly the tables with a gap |
| Collision.Flatten | scripts/generate_collision_data.py:63-68 | the ranges tile the boxes contiguously and each gives back its shape |
| Collision.Compile | scripts/generate_collision_data.py:13-68 | exactly when tables are produced and with which error they are refused; a lookup in them gives the source's boxes for every state |
| Collision.ShapesInPlainWords | scripts/generate_collision_data.py:17-58 | a single box of numbers becomes a list of one and everything else stays; a block with one shape has it in all its states, a block with a list has the k-th in its k-th state |
| Collision.TwoStates | scripts/generate_collision_data.py:13-68 | two blocks, one of a single box and one of two boxes, compiled and looked up |
| Collision.DisjointBlocksKeepTheirShapes | src/minecraft/physics.rs:302-306 | with disjoint blocks every state of every block looks up to that block's own shape |

## Left out

- The Lua VM: a handler, timer or callback is an outcome, and scripts issue actions and
  register callbacks at the points where they run. A callback that registers another callback
  while it is being invoked is not modelled; the borrow at src/lua/worker.rs:571 spans it.
- Conversion of events and results into Lua tables and lookups in the Lua registry, which can
  fail and then skip a call; a callback that is removed for such a call counts as invoked here.
- Removal of one-shot event handlers, publish/subscribe, timers as such, and the shared store.
- The FIFO queue, which exists for a benchmark comparison only.
- Blocking, wake-ups and fairness: a step that can happen may be delayed forever, so bounds
  count a worker's own steps and say nothing about time; and scripts that never stop registering
  callbacks are not bounded.
- Overflow of 64-bit counters, request ids and the 32-bit attempt number.
- Rounding of floating-point numbers and `powi` overflow: delays and pacing use real numbers.
- SHA-1: the digest is any nonempty byte string.
- Server options and reconnect policies that the registry only carries along, and the order in
  which `SpawnAllBots` visits bots, hence which of several offending bots it names.
- Sockets, proxies, sign-in, packet decoding, the world store and the command-line programs.
- Collision shape ids and state ids are natural numbers; malformed JSON, the friction table
  and the text of the generated file are not modelled.
- Inboxes.DispatcherHandle.DispatchActionResult: describes two uninterrupted pushes; their
  interleaving with everything else is the subject of `Delivery`.
- Callbacks.CallbackRegistry.Resolve: the callback itself is one entry in a log.
- Startup.CollectStartupReports: the timeout around it is a step of the protocol, not of this
  method.
