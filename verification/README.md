# notifkit: models and proofs of its delivery pipeline

notifkit carries notifications from an engine over Redis Streams to delivery workers, parks them in Postgres and Redis
sorted sets when they must wait, runs durable workflows, and limits how much is sent. It promises that messages survive
crashes, duplicates and restarts. This project states that promise, and those of the parts around it, as Dafny models and
proves them.

Each protocol is a state machine whose steps are the external commands of the source (one stream write, one SQL statement,
one script), or a class whose methods are the stretches of an `async` method between two of its awaits. Steps of any
number of workers interleave freely; a worker may stop for good between any two of them. A result about all runs
quantifies over every finite sequence of enabled steps from the initial state. Check everything with
`dafny verify dfyconfig.toml`.

| file | what it models |
|---|---|
| `Delivery.dfy` | one delivery attempt: first provider with room, provider loop and its time budget, where the task goes next, why every task ends |
| `ReleaseProtocol.dfy` | the protocol between engine, delivery workers, scheduler consumer, scheduler polls and rebuilds, as a machine |
| `ReleaseBacking.dfy`, `ReleaseInvariant.dfy`, `ReleaseSafety.dfy` | what keeps a task alive, the invariant, and the results: nothing is lost |
| `ReleaseProgress.dfy`, `ReleaseOnce.dfy` | the other half: every task and every order can still be sent; what one poll claims no other does for a minute; nobody acts twice on one take |
| `ReleaseTiming.dfy` | no release before the earliest send time; every version of a task lies on its itinerary |
| `WipeLosses.dfy`, `LateMarkers.dfy`, `Punctuality.dfy` | exactly what a wipe loses, what the ack of a supposed duplicate loses, and what is released too early |
| `ReleaseRuns.dfy`, `LosingRuns.dfy`, `EarlyRelease.dfy` | runs, stage by stage: two that lose a task, one that releases it too early |
| `SchedulerPoll.dfy` | the loops of one poll and of the paged rebuild |
| `StreamWorker.dfy`, `HandlerChances.dfy`, `StreamConsumer.dfy` | one stream entry among competing workers; that it gets its handler runs and is dead-lettered for cause only; ack buffers and dead letters |
| `TaskLease.dfy`, `LeaseAnswers.dfy` | the idempotency lease on a task id; what `acquireLease` answers, and for how long a processed task stays closed |
| `StepNotify.dfy`, `Workflow.dfy`, `WorkflowSafety.dfy` | the durable workflow engine, for one instance |
| `WorkflowReplay.dfy`, `WorkflowProgress.dfy` | where a resumed run goes on and how long a wait lasts; that an instance can always be completed |
| `Wakeups.dfy`, `TimersAndEvents.dfy`, `Waking.dfy`, `LostWakeups.dfy` | the engine among its stream entries, timers and waiters: what a timer, an event and an early resume do, exactly when a sleeping instance can wake, and two runs after which it cannot |
| `Doubles.dfy` | double-precision rounding, and what it makes of the lease script's estimate |
| `LeaseScript.dfy`, `ApiRateLimiter.dfy`, `TokenConservation.dfy`, `TokenWaits.dfy`, `TokenAnswers.dfy` | the sliding-window lease script, the in-process limiter, and both together: tokens are conserved, nobody is refused while there is room, every request is answered |
| `UserThrottle.dfy`, `ThrottleWindow.dfy`, `ThrottleRefusals.dfy` | the per-user throttle and its script; exactly when it keeps the whole window; that it refuses nobody whose window has room |
| `QuietHours.dfy` | chained quiet-hours windows |
| `BatchProcessor.dfy`, `CircuitBreaker.dfy`, `SettingsCache.dfy` | three in-process pieces under overlapping calls |
| `Wrappers.dfy`, `Arithmetic.dfy`, `Counting.dfy` | an optional value; powers and quotients; the pigeonhole principle |

## Assumptions

- Release protocol: successive parks of one task id have different send times (a stamp makes them so), because the
  conditional delete compares send times. Redis may lose its data at any moment, with engines, handlers and polls between
  two of their commands, except while a rebuild is under way. The poll lock is not relied on. The poll's send gate is an
  arbitrary set of blocked tasks. The protocol answers for a task from its first event, entry or dead letter on; from its arrival at the
  engine on (`ReleaseSafety.AcceptedTasksAreNotLost`) only if the engine's 60 s marker for an order that was never
  published has expired when the order is redelivered.
- Stream worker: less than the reclaim threshold passes between a scanner's listing and its claim. Reclaim safety also
  assumes that touches land when their timer fires and that a handler starts within the threshold minus one touch period
  of the read or claim that got it; this is the `onTime` switch of the model, which the other results leave open.
- Task lease: a holder does not unmark after its lease has run out (the `inTime` switch), and dispatching starts early
  enough for the 25 s budget to fit into the rest of the 60 s lease. The full TTL of the marker is at least that of the lease.
- Workflow: one JSON definition that does not change during an instance, and events that carry the instance's own project.
  The instance lock is not relied on: any number of runs may be alive at once. That an instance can wake means that some
  continuation gets it claimed without a new trigger and without an event being delivered, or delivered again.
- Lease script: one shared clock, and a command that reaches Redis at most 60 s after its caller read it. The limit may vary
  from call to call below a fixed bound. The script's estimate may be the exact one or, where the weighted previous count is
  a whole number, one less; `Doubles.DoublesEstimate` proves that double arithmetic gives nothing else as long as the two
  counts times the window stay below 2 to the 50th.
- User throttle: one limit and window, targets that do not go back and are not before the caller's now, a clock reading
  that is at most `lag` older than the instant the script runs.
- Quiet hours: a zone with a fixed offset of whole minutes.

## What turned out false

Each with the input or run that shows it, and with the exact condition.

- The lease script's window: the double product can come out just below a whole number, and the floor is then one too low.
  With 555 tokens in the last minute and 105 in this one, 16 s into it, the script computes 511 for 512 and admits a 704th
  token where the bound is 703 (`LeaseScript.RoundingAdmitsOneMore`). `LeaseScript.LeaseIsBounded` proves the bound with 1
  added, and that the tight one holds exactly when the estimate came out right or the request would have fitted under it.
- A wipe of Redis during a poll can lose a task that is parked in Postgres: the poll has published it, the wipe takes the
  entry, and the poll deletes the row (`LosingRuns.AWipeLosesAParkedTask`). `WipeLosses.WipeLosesExactly` says for every
  reachable state which tasks a wipe can lose.
- An engine that dies between its row and its event leaves a marker; if the order is redelivered before the marker expires
  it is acked as a duplicate and the row is stranded (`LosingRuns.ALateMarkerLosesATask`).
  `LateMarkers.DuplicateAckLosesExactly` says for every reachable state when such an ack can lose the task.
- A task parked twice can be released before its second send time: a poll that dies between its publish and its clean-up
  leaves a member behind that brings the later version too soon (`EarlyRelease.AnOldMemberReleasesEarly`).
  `Punctuality.EarlyReleaseExactlyWhen` lists what must be left over for that, in any reachable state.
- The throttle's window: Redis rounds a TTL to the nearest second, so a key may be left up to 499 ms short of what the
  script asks for; and a script that runs later than its caller read the clock may find pruned or expired what it should
  count. `UserThrottle.RoundedTtlAdmitsAThird` is a run in which three sends go out in one window of two. With a limit of
  two or more, all runs keep the whole window exactly if there is no such lag and the window is at least 499 ms short of
  whole seconds (`ThrottleWindow.WholeWindowExactlyWhen`). Otherwise the bound holds over a window less 499 ms and the lag;
  `UserThrottle.KeyOutlivesSend` says which call leaves a key short, and after any that does some continuation breaks the
  bound (`UserThrottle.AShortKeyCanOverflow`).
- Quiet hours: the cap of ten re-checks is wrong for twelve hourly windows (`QuietHours.TwelveWindowsAreTooMany`); the
  answer is right, whatever the zone and the instant, exactly when no twelve windows stand back to back
  (`QuietHours.CapIsRightExactlyWhen`).
- `unmark` carries no owner token: `TaskLease.LateUnmarkLetsTwoHold` is, for any TTLs, the run in which a late one lets two
  workers hold at once. `TaskLease.UnmarkIsSafeExactlyWhen` is the condition for one unmark,
  `TaskLease.ExclusionIsExactlyInTime` the one for all runs.
- A sleeping workflow instance may have nothing left to wake it. All its waits share one timer, and a poll that has
  published the resume of one wait removes the timer that the resumed run has meanwhile set for the next
  (`LostWakeups.ARemovedTimerStrands`). The event worker means to publish a resume before it deletes the waiter, but only
  buffers it; if it dies in between, the step is resolved, the waiter gone, and the timeout dropped as stale
  (`LostWakeups.ABufferedResumeStrands`). `Waking.WakesExactlyWhen` is the exact condition for an instance with nothing at
  work on it; `Waking.TimersLast` shows that the removal of a timer still needed is the only way to lose one.
- Without a dead-letter stream a handler that fails for good takes its entry with it
  (`StreamWorker.EntriesAreSafeExactlyWithDeadLetters`).

## Model

| member | source | states |
|---|---|---|
| Delivery.FirstOpenProvider | src/services/delivery/main.ts:401-414 | the first provider whose rate limit has room, or the shortest wait among all when none has |
| Delivery.CallProvider | src/services/delivery/main.ts:517-569 | a call ends when the provider answers or at the shorter of the task's timeout and the rest of the budget, whichever comes first, with the answer or a failure that is not permanent; an open breaker makes none and takes no time |
| Delivery.DispatchLoop | src/services/delivery/main.ts:472-569 | whatever the providers and timeouts: exactly those with room and a closed breaker are called, from the first with room on, in order, once each and each at its turn, until a call settles the send or the 25 s budget is spent; the result is the last call's, or a plain failure if a provider after it had room and an open breaker |
| Delivery.Process | src/services/delivery/main.ts:380-720 | the outcome is the decision of the branches, with a lease that does not answer, a missing template and anything awaited that throws; the calls made are those the loop owes from the first open gate on, none without an acquired lease and rendered content, and a task is reported delivered exactly if the last of them was accepted |
| Delivery.OutcomeExactlyWhen | src/services/delivery/main.ts:337-720 | each outcome of an attempt, delivered, parked, handed over, dead-lettered, failure published, left or skipped, and exactly when it is the one |
| Delivery.FailedSendIsParkedOrGivenUp | src/services/delivery/main.ts:476-500 | a failed send is given up exactly if the provider called it permanent or the attempts have run out; a timeout or an open breaker is neither, and the task is parked with the attempt counted |
| Delivery.RetriesAreOwed | src/services/delivery/main.ts:476-500 | a task whose sends keep failing without being called permanent is parked n times in a row exactly if its attempts last that long |
| Delivery.EveryRetryIsTaken | src/services/delivery/main.ts:476-500 | from a fresh task that is exactly `maxAttempts - 1` parks before it is handed over or dead-lettered |
| Delivery.BackoffGrows | src/services/delivery/main.ts:65-86 | the waits between attempts are 30 s, two minutes, and ten minutes from then on |
| Delivery.DeferralsAreOwed | src/services/delivery/main.ts:415-447 | a task that never finds a provider with room is deferred until its fifty deferrals are used up, and no longer |
| Delivery.DecisionClosesOrHops | src/services/delivery/main.ts:337-720 | every attempt closes the task, leaves its entry to a lease holder, takes an allowed hop (retry park, throttle park, or hand-over of exactly the rest of the fallback chain), or throws because something it awaits failed |
| Delivery.HopDescends | src/services/delivery/main.ts:415-447 | (channels left, retries left, deferrals left) falls lexicographically on every hop |
| Delivery.ParksPerChannelBounded | src/services/delivery/main.ts:477-500 | per channel at most `maxAttempts - 1` retry parks and 50 throttle parks, in any order |
| Delivery.EveryTaskEnds | src/services/delivery/main.ts:337-500 | no sequence of retries, deferrals and fallbacks is longer than a budget computed from the task |
| ReleaseInvariant.InvKept | src/services/scheduler/main.ts:67-241 | the protocol's invariant survives every step of every process, crash, duplicate, duplicate ack, dead letter after the last retry, and a wipe that catches engines, handlers and polls at work |
| ReleaseSafety.NoTaskIsLost | src/services/delivery/main.ts:185-213 | after any run a task that the protocol answers for is pending on an outbound stream, parked where a poll or a rebuild finds it, or closed: accepted, handed over, failure published, dead-lettered or blocked |
| ReleaseSafety.AcceptedTasksAreNotLost | src/services/engine/schedule-or-dispatch.ts:60-86 | from its arrival at the engine on, a task is still on its way in, not lost (a dead-lettered order counts as closed), or a wipe has ended that, on every run without the ack of a never published order for a late marker |
| ReleaseProgress.EveryTaskCanBeSent | src/services/scheduler/main.ts:67-311 | from every reachable state, whatever has crashed and whatever a wipe has taken, each task that the protocol answers for and that is not closed has a continuation that sends it: through its stream, its member or event and a poll, or a rebuild |
| ReleaseProgress.EveryOrderCanBeSent | src/services/engine/schedule-or-dispatch.ts:35-107 | the same for an order that is still on its way in |
| ReleaseProgress.DuplicatesAreDropped | src/services/delivery/main.ts:450-462 | an entry of a task already marked completed is acked, and nothing else changes |
| ReleaseProgress.ADeadHandlersEntryIsSent | src/services/delivery/main.ts:380-720 | an entry whose handler has died goes to another one, who sends it |
| ReleaseProgress.ClaimsAreAMinuteApart | src/redis/index.ts:144-157 | what one poll has claimed no other claims for 60 s, unless the member is written anew or removed |
| ReleaseProgress.ADeadPollsClaimsReturn | src/redis/index.ts:144-157 | after those 60 s another poll can claim all that a dead one held |
| LateMarkers.DuplicateAckLosesExactly | src/services/engine/main.ts:228-232 | in any reachable state the ack of a redelivered order, its marker still standing, can lose the task exactly if no stream was ever told of it, it is not closed, and no rebuild has restored or will restore its row |
| LosingRuns.ALateMarkerLosesATask | src/services/engine/main.ts:228-232 | a run from the start in which the row of a dead handler is stranded by such an ack |
| WipeLosses.WipeLosesExactly | src/services/scheduler/main.ts:209-241 | in any reachable state a wipe can lose a task answered for exactly if it is neither closed nor parked, or a poll has published the very version in its row, or is about to remove the member a rebuild restores; every other task is safe until the next wipe |
| WipeLosses.WipeEmptiesRedis | src/services/scheduler/main.ts:273-311 | a wipe leaves nothing in Redis, and Postgres and the processes as they are |
| LosingRuns.AWipeLosesAParkedTask | src/services/scheduler/main.ts:209-241 | a run from the start in which a wipe and a delete take the entry and the row of a parked task |
| ReleaseSafety.RowDeletedOnlyOnceReleased | src/services/scheduler/main.ts:209-241 | a parked row goes only when a poll that published or blocked that very send time deletes it, so a concurrent re-park survives; the task is then closed or on a stream, unless a wipe took that entry |
| ReleaseSafety.RebuildRestoresEveryRow | src/services/scheduler/main.ts:273-311 | whenever a rebuild, of any page size, is about to set the sentinel, every parked task that the protocol answers for has a member or an event, is on a stream, or is closed |
| ReleaseBacking.StepKeepsBacked | src/services/engine/schedule-or-dispatch.ts:35-107 | what accounts for a parked version survives every step but its own release: row before event, publish before delete before zrem |
| ReleaseTiming.NeverReleasedBeforeEarliest | src/services/scheduler/main.ts:115-207 | a poll publishes a task only once the earliest send time ever recorded for it has come |
| ReleaseTiming.EveryVersionIsOnItsWay | src/services/delivery/main.ts:415-500 | on every run, with every duplicate, early release and wipe, whatever is parked, on a stream or in a worker's hands is the task as it arrived but for its counters, and what an allowed sequence of at most `maxAttempts - 1 + 50` parks makes of it |
| ReleaseTiming.ClosedAsItsChainSays | src/services/delivery/main.ts:337-380 | on every run a task is handed over only if it came with a fallback, and its failure published only if it did not |
| ReleaseOnce.EngineActsOncePerTake | src/services/engine/schedule-or-dispatch.ts:35-107 | in every run an engine handler dispatches or schedules an order at most once for each time it takes one |
| ReleaseOnce.HandlerActsOncePerTake | src/services/delivery/main.ts:380-720 | in every run a delivery handler closes its task, announces its park or drops a duplicate at most once for each entry it takes |
| ReleaseOnce.PollPublishesOncePerClaim | src/services/scheduler/main.ts:155-207 | in every run a poll publishes a task at most once for each time it claims, however many members of it were due |
| ReleaseOnce.DeadLettersClose | src/queue/index.ts:500-536 | a dead letter closes its task, whether or not the ack after it lands, and an entry that is not acked stays |
| EarlyRelease.AnOldMemberReleasesEarly | src/services/scheduler/main.ts:209-241 | a run in which a poll publishes a task long before the send time of the row it read |
| Punctuality.EarlyReleaseExactlyWhen | src/services/scheduler/main.ts:115-241 | in any reachable state, for a row whose time is to come: some continuation without a new park publishes it before that time exactly if a member, event, rebuild, poll, handler or order left over from an earlier version carries an earlier one |
| SchedulerPoll.PlanRelease | src/services/scheduler/main.ts:155-207 | the release loop computes the plan: lanes in claim order, rows to delete, members to remove |
| SchedulerPoll.PlanPublishes | src/services/scheduler/main.ts:155-207 | a row's task is published in one of the three lanes exactly if it was claimed and not blocked |
| SchedulerPoll.PlanIsWhatThePollOwes | src/services/scheduler/main.ts:145-241 | the plan publishes, deletes and removes exactly what the release protocol requires of a poll |
| SchedulerPoll.PlanReleasesOnce | src/services/scheduler/main.ts:155-207 | no task is released twice by one poll even with two members, and each lane holds its own priority only |
| SchedulerPoll.SelectPage | src/services/scheduler/main.ts:273-311 | a page is the least keys from the cursor on, in order, and short only when none are left |
| SchedulerPoll.Stores.Rebuild | src/services/scheduler/main.ts:273-311 | for any page size every row has its bare member afterwards, with its old score if it was there and otherwise the row's send time; every other member keeps its score, none is added, and the total is the number of rows, read in pages that leave none out |
| SchedulerPoll.RebuildIsTheProtocols | src/services/scheduler/main.ts:273-311 | the pages that the loop reads are a run of the release protocol's rebuild steps, which leaves what the loop leaves: every row's bare member due at its send time, and the sentinel set |
| SchedulerPoll.Stores.AddPage | src/services/scheduler/main.ts:285-303 | one pipeline of ZADD NX adds the page's members at their rows' send times and keeps existing scores |
| StreamWorker.ClaimIsExclusive | src/queue/index.ts:619-649 | a claim succeeds only a full threshold after the last delivery or touch, and the claimer's delivery count is the one Redis keeps |
| StreamWorker.StepKeepsCounts | src/queue/index.ts:619-672 | each delivery count is handed to one holder, who starts at most one handler with it |
| StreamWorker.EntryLeavesOnlyWhenSettled | src/workers/index.ts:223-300 | with a dead-letter stream an entry stays unread or pending until its handler succeeded or its dead letter landed, with lost buffered acks and failing dead-letter writes |
| StreamWorker.EntriesAreSafeExactlyWithDeadLetters | src/queue/index.ts:500-536 | that holds on all runs exactly if a dead-letter stream is configured |
| StreamWorker.HandlerRunsAreBounded | src/workers/index.ts:223-249 | the handler runs at most once per delivery count, only for counts up to `maxRetriesBeforeDlq`, so at most that many times |
| HandlerChances.StartRunsWithinTheLimit | src/workers/index.ts:223-249 | a worker that starts on the entry runs the handler exactly if the delivery count is within the limit, and otherwise goes on to the dead letter without a run |
| HandlerChances.DeadLetteredOnlyWhenDue | src/workers/index.ts:200-300 | over every run, an entry is dead-lettered only if some delivery count exceeded the limit or a handler that ran on it failed for good |
| HandlerChances.EveryDeliveryGetsItsRun | src/workers/index.ts:223-249 | the bound is met: for each number up to the limit there is a run with exactly that many handler runs, one per delivery, with workers that die and no dead letter |
| HandlerChances.EntriesNeverGetStuck | src/queue/index.ts:578-672 | with a dead-letter stream, from every reachable state in which an entry is not settled it can still reach a worker that settles it, acks it and deletes it, whoever has died |
| HandlerChances.TakenOverOnlyWhenStale | src/queue/index.ts:610-649 | in every run a claim gets the entry exactly if it is pending, still there and untouched for the threshold, and it has then been idle for the threshold doubled with each delivery after the first |
| HandlerChances.ALongHandlerKeepsItsEntry | src/workers/index.ts:306-323 | however long a handler takes, timely touches can keep its entry for it |
| StreamWorker.NoClaimWhileRunning | src/queue/index.ts:578-649 | while a handler runs on time, Redis turns every claim of its entry away |
| StreamWorker.HandlersNeverOverlap | src/workers/index.ts:306-323 | with touches on time the idle time stays within the threshold, no scanner takes the entry, and two handlers of one entry never run at once |
| StreamConsumer.Consumer.constructor | src/queue/index.ts:411-437 | an empty consumer with nothing buffered |
| StreamConsumer.Consumer.Ack | src/queue/index.ts:411-437 | acked ids are sent at once, buffered under an armed timer, or flushed at a full batch; nothing else leaves the stream, and only an unbuffered ack can throw |
| StreamConsumer.Consumer.AckAndDelete | src/queue/index.ts:447-452 | an XACK that lands removes exactly its entries from the pending list, an XDEL that lands exactly those from the stream, and it throws unless both do |
| StreamConsumer.Consumer.FlushAcksForStream | src/queue/index.ts:454-464 | the buffer is emptied before it is sent; a failed flush leaves its entries pending |
| StreamConsumer.Consumer.FlushAcks | src/queue/index.ts:466-473 | after the timer or `stop` nothing is buffered, and exactly the buffered entries whose XACK landed are acked, those whose XDEL landed deleted |
| StreamConsumer.Consumer.Nack | src/queue/index.ts:500-536 | an entry is acked only after its dead letter is written, and a failed write leaves everything as it was; without a dead-letter stream a nack does, and throws, what an ack does |
| TaskLease.SetNxKeepsInv | src/idempotency/index.ts:27-39 | taking the key, at the first SET or the second, keeps exclusion and the separation of calls |
| TaskLease.UnmarkIsSafeExactlyWhen | src/idempotency/index.ts:58-60 | after an unmark, at most one worker holds in time and calls never overlap, however the workers go on in time, exactly if nobody else holds in time and all calls have ended; an unmark in time always meets that |
| TaskLease.MarkKeepsInv | src/idempotency/index.ts:48-51 | a `markProcessed` that lands at any later time is harmless |
| TaskLease.AtMostOneHolder | src/idempotency/index.ts:27-60 | over every interleaving of SET, GET, SET with expiry at most one worker holds a task's lease in time |
| LeaseAnswers.AcquireAnswers | src/idempotency/index.ts:27-39 | undisturbed, `acquireLease` takes the lease exactly when no key lives, says `completed` exactly of a processed task and `locked` exactly of one in progress, and then leaves the key alone |
| LeaseAnswers.SecondSetAnswers | src/idempotency/index.ts:35-37 | after a key that expired between SET and GET the second SET takes the lease exactly if nobody else has meanwhile |
| LeaseAnswers.CompletedMeansProcessed | src/idempotency/index.ts:27-51 | over every run a worker is told `completed` only if a mark has landed |
| LeaseAnswers.NobodyPassesALivingKey | src/idempotency/index.ts:27-51 | in every run no lease is taken while a key lives, however many duplicates ask, unless somebody unmarks it |
| LeaseAnswers.ProcessedStaysProcessed | src/idempotency/index.ts:47-51 | once `markProcessed` has landed, nobody takes the lease and the key says processed until its full TTL is over or somebody unmarks it |
| LeaseAnswers.ProcessedForItsTtlOnly | src/idempotency/index.ts:47-51 | and no longer: after the TTL the next newcomer takes the lease |
| LeaseAnswers.ADeadHoldersTaskIsTakenUp | src/idempotency/index.ts:27-39 | a task whose holder died goes to the next duplicate once the key's time is over |
| LeaseAnswers.EveryMarkLandsOnce | src/services/delivery/main.ts:701-710 | marks on their way are those issued less those landed |
| TaskLease.ProviderCallsNeverOverlap | src/services/delivery/main.ts:449-573 | all provider calls of an earlier lease have ended when a later lease's first begins |
| TaskLease.LateUnmarkLetsTwoHold | src/services/delivery/main.ts:701-718 | for any TTLs, a run with a late unmark in which two workers hold in time |
| TaskLease.ExclusionIsExactlyInTime | src/services/delivery/main.ts:701-718 | whatever the TTLs, all runs exclude exactly if holders never unmark late |
| StepNotify.TargetFallsBackOnlyWhenUnnamed | src/workflows/sdk.ts:51-79 | the target depends on the instance only for a step that names none, and resolution fails exactly for a list of users or when nobody is named at all |
| StepNotify.TargetIsTheOneNamed | src/workflows/sdk.ts:51-79 | a segment wins over a topic and a topic over a user, and the target is of the kind and carries the name that the step gave, or is the instance's own user when it gave none |
| StepNotify.PayloadSaysWhatTheStepSays | src/workflows/sdk.ts:88-110 | the wire event carries the step's own template, times and texts, its resolved target and the key it was given, with the defaults for what it leaves out |
| Workflow.KnownSteps | src/services/workflow/main.ts:199-216 | the steps that count are those of the definition with a known action, in its order and each as often as it stands there |
| Workflow.Replay | src/services/workflow/main.ts:303-362 | the handler's loop stops at the first known step that the log does not answer: it is to run exactly if the log has no row for it, and to suspend exactly if its row is a wait not yet over or a wait for an event whose output is null |
| Workflow.AdvancesAsReplayed | src/services/workflow/main.ts:364-477 | a run's own steps pass every step with an answer, and at the first without one the run completes, suspends, stops canceled, or goes on to perform the step |
| WorkflowSafety.StepKeepsInv | src/services/workflow/main.ts:246-509 | every step of every run, reaper, event worker, timeout and cancel keeps the log well formed and only extends it |
| WorkflowSafety.InsertsAtTheEnd | src/services/workflow/main.ts:353-362 | a run about to insert has passed every row there is, however stale its snapshot |
| WorkflowSafety.ReplayIsDurable | src/services/workflow/main.ts:303-362 | the rows are always 0..k-1, row i carries the action of the i-th known step, and all events ever published for an index are one event with key (instance, index), fixed by definition and stored input |
| WorkflowReplay.RecordedStepsAreNeverRepeated | src/services/workflow/main.ts:303-362 | a run that reads its steps once row i is written neither publishes nor sets a timer for step i, whatever everyone else does meanwhile |
| WorkflowReplay.ResumesWhereTheLogEnds | src/services/workflow/main.ts:303-477 | in every reachable state a run that reads the log suspends again exactly if the last row is a wait not yet over or an event that has not come, completes if the log is complete, and otherwise performs the step right behind the log |
| WorkflowReplay.SleepsLastTheirTime | src/services/workflow/main.ts:364-420 | a wait of some length lies at least that long after every earlier row and at most that long after its own |
| WorkflowReplay.TriggerFinds | src/services/workflow/main.ts:246-295 | a trigger creates an instance that is not there, goes on to claim one that is pending, and changes no other (`Wakeups` has the deferred resume of a running one) |
| WorkflowReplay.OneOfTwoClaims | src/services/workflow/main.ts:280-292 | of two runs that saw an instance pending at most one claims it |
| WorkflowProgress.CompletionStaysPossible | src/services/workflow/main.ts:199-509 | from every reachable state of an instance that has not ended some run completes it, publishing exactly the notify steps that have no row yet, in order and once each |
| WorkflowSafety.SleepsAreNeverCutShort | src/services/workflow/main.ts:364-462 | no row after a wait is written before its `scheduledAt`; an unresolved wait for an event is the last row |
| WorkflowSafety.LogIsAppendOnly | src/services/events/main.ts:301-319 | rows never go or change except that a wait for an event gets its output, which never becomes null again |
| WorkflowSafety.FinalStatusesAbsorb | src/services/workflow/main.ts:485-509 | completed, failed and canceled are never left |
| WorkflowSafety.CancelStopsEveryRun | src/repositories/workflow.ts:46-62 | after a cancel commits a live run writes at most one more row and one more event, only if it was past its check, and a later run none |
| Wakeups.EngineRuns | src/services/workflow/timers.ts:23-131 | with entries, timers, waiters, polls and event workers around it the engine still only takes its own steps, so its results hold |
| Waking.WakesExactlyWhen | src/services/workflow/timers.ts:36-124 | with nothing at work on it, an instance that has not ended can be claimed again, without help from outside, exactly if there is an unacked entry, a timer of a wait or a deferred resume, or a timeout whose step is unresolved and whose event has a waiter |
| Waking.TimersLast | src/services/workflow/main.ts:364-462 | unless a poll removes a timer that is needed, every wait that is not over and every unresolved wait for an event has its timer, and an instance asleep in a wait can wake whatever has died |
| TimersAndEvents.StatusDecides | src/services/workflow/timers.ts:39-65 | a claimed timer is dropped exactly if its instance is gone or has ended, left for later exactly if it runs, and otherwise acted on, a timeout after a look at its step |
| TimersAndEvents.StaleTimeoutsAreDropped | src/services/workflow/timers.ts:67-86 | a timeout is stale exactly if its step has no row or has its output |
| TimersAndEvents.ADueTimerResumes | src/services/workflow/timers.ts:29-124 | the due timer of a wait or of a deferred resume puts exactly one resume on the stream, with the right input, and goes |
| TimersAndEvents.ATimeoutResumes | src/services/workflow/timers.ts:66-124 | a timeout that is not stale resolves its own step as timed out, takes exactly the waiters of its event, resumes the instance and goes |
| TimersAndEvents.AnEventResumes | src/services/events/main.ts:238-347 | an event that matches a live waiter resolves the waiting step with its data, resumes the instance with its own input and takes the waiter; no other step, waiter or timer is touched |
| TimersAndEvents.AnEventWithoutAStepResumes | src/services/events/main.ts:298-347 | if no step waits any more the event still resumes the instance and takes the waiter |
| TimersAndEvents.EarlyResumesAreDeferred | src/services/workflow/main.ts:148-160 | a resume that finds the lock taken or the instance running gets a timer two seconds ahead with its own input, and only then is its entry done with |
| TimersAndEvents.OnlyThusTheyLeave | src/services/events/main.ts:315-347 | an entry leaves its stream only once a run it started is done with it or after the last retry, a waiter only by its event, its timeout or a cancel |
| LostWakeups.ARemovedTimerStrands | src/services/workflow/timers.ts:121-124 | a run from the start in which a poll removes the timer of the second wait and the instance sleeps for good |
| LostWakeups.ABufferedResumeStrands | src/services/events/main.ts:315-347 | a run from the start in which an event worker deletes the waiter and dies with its resume still buffered |
| Doubles.DoublesEstimate | src/redis/index.ts:75-77 | for counts and windows of any practical size the three roundings leave the floor exact, or one too low where the weighted previous count is a whole number; never at offset 0 or with nothing before |
| Doubles.SixteenSecondsIn | src/redis/index.ts:75-77 | for 555 and 105 tokens, 16 s into a minute, doubles compute 511, and 512 is right |
| LeaseScript.WeightsSplit | src/redis/index.ts:72-90 | the right estimate and the rounded-up elapsed share of the previous bucket add up to the two counts |
| LeaseScript.LeaseIsBounded | src/redis/index.ts:49-91 | a grant is all that was asked or all the room the estimate leaves, the bucket stays within the limit, previous plus current is at most limit + ceil(previous * t / window) + 1, and without the 1 exactly if the estimate is right or the request fits under the right one; it refuses exactly when the estimate has reached the limit |
| LeaseScript.LeaseWritesItsCounter | src/redis/index.ts:79-90 | an answer without a grant writes nothing; a grant raises the caller's own counter only, and its expiry is set by its first grant and never moved |
| LeaseScript.RoundingAdmitsOneMore | src/redis/index.ts:72-90 | four leases of a limit of 555 after which the two buckets hold 704 tokens, one over the tight bound |
| LeaseScript.LeaseKeepsFaithful | src/redis/index.ts:56-90 | a counter never expires while the bucket or the next one reads it, so it always holds what was granted |
| ApiRateLimiter.CalculateTokenBatchSize | src/rate-limiter/api-rate-limiter.ts:17-24 | one token up to a limit of 10, five up to 60, then five seconds' worth rounded up, at least 10 and at most the batch cap; never more than the limit, zero only when nothing may be leased |
| ApiRateLimiter.ProjectTokenLeaseState.BeginCheck | src/rate-limiter/api-rate-limiter.ts:76-100 | `check` up to its answer or first await: rollover, a token taken, a lease started or joined |
| ApiRateLimiter.ProjectTokenLeaseState.ResumeCheck | src/rate-limiter/api-rate-limiter.ts:94-109 | `check` after an awaited lease: refused exactly after a rollover or with no token left and an empty grant, admitted exactly if there is a token of its bucket, which it takes, and else waiting again |
| ApiRateLimiter.BeginExactly | src/rate-limiter/api-rate-limiter.ts:76-100 | a new request is never refused at once; it is admitted exactly if its bucket has a token, and a lease is started exactly after a rollover, or when none is in flight and at most a quarter of a batch or a single token is left |
| ApiRateLimiter.ResumeExactly | src/rate-limiter/api-rate-limiter.ts:94-109 | when a request that has waited is refused, admitted, or waits again, and what that takes from its state |
| ApiRateLimiter.SettleFreesItsOwn | src/rate-limiter/api-rate-limiter.ts:140-163 | a lease that ends makes room for the next if it is the one in flight, touches no other, and credits its own bucket only |
| ApiRateLimiter.ProjectTokenLeaseState.StartRefill | src/rate-limiter/api-rate-limiter.ts:112-169 | at most one lease in flight per state |
| ApiRateLimiter.ProjectTokenLeaseState.SettleLease | src/rate-limiter/api-rate-limiter.ts:129-163 | the credit counts only for the bucket it was leased for, and clears only its own lease |
| ApiRateLimiter.Limiter.Check | src/rate-limiter/api-rate-limiter.ts:55-110 | one state per project, created on demand; no other state changes, and pruning keeps every recent one |
| ApiRateLimiter.Limiter.MaybePrune | src/rate-limiter/api-rate-limiter.ts:172-180 | past 2000 projects exactly the states more than one bucket old are dropped |
| TokenConservation.StepKeepsInv | src/rate-limiter/api-rate-limiter.ts:112-170 | every check, continuation, answer, delivery, failure and late command keeps the balance and the faithful counters |
| TokenConservation.TokensAreConserved | src/rate-limiter/api-rate-limiter.ts:55-170 | in any bucket admitted + local + discarded + in transit + lost = granted + fail-open credit; granted is within the limit and the credit within one batch per failed lease, for any number of processes |
| TokenConservation.SlidingWindowHolds | src/redis/index.ts:72-90 | the sliding-window bound at every grant of every run, to a waiting caller or to one that gave up, with 1 added, and exactly when it is needed |
| TokenWaits.NobodyWaitsInVain | src/rate-limiter/api-rate-limiter.ts:94-169 | in every run no request waits on a lease that has resolved already, and one that can go on waits on a lease of its own state and bucket |
| TokenWaits.RefusedOnlyWhenSpent | src/rate-limiter/api-rate-limiter.ts:94-109 | in every run a request that has waited is refused only if its state has left the bucket, or the script has run for the very lease it awaited and found the limit reached |
| TokenWaits.RoomMeansAdmission | src/rate-limiter/api-rate-limiter.ts:94-169 | a request that waits while the script runs below the limit is admitted when the answer is delivered in the same bucket |
| TokenConservation.ComputedEstimatesAreSteps | src/redis/index.ts:72-78 | whatever double arithmetic computes from the counters of a run is one of the estimates that run may use |
| TokenAnswers.NewcomersAreAnswered | src/rate-limiter/api-rate-limiter.ts:55-170 | from every state a newcomer gets its answer once the script has run for it, and is admitted exactly if the estimate is below the limit |
| TokenAnswers.FailuresAdmit | src/rate-limiter/api-rate-limiter.ts:145-155 | if its lease fails instead, the newcomer is admitted, and Redis may still run the command |
| TokenAnswers.ScriptRunsOnce | src/rate-limiter/api-rate-limiter.ts:112-170 | in every run Redis runs the script of a lease at most once, whoever waits for it |
| TokenAnswers.OneLeaseAtATime | src/rate-limiter/api-rate-limiter.ts:112-170 | in every run a lease that has not resolved is the one in flight of its state exactly if the state is still in its bucket |
| UserThrottle.Throttle.CheckSend | src/rate-limiter/user-throttle.ts:60-99 | a limit or window that makes no sense counts as none given; a critical send is uncounted; any other is allowed exactly when the key still holds it or its window has room, is recorded once at its own time, and extends the key exactly if that is short |
| UserThrottle.Throttle.ThrottleUser | src/redis/index.ts:124-142 | the commands of the script, one by one, leave the set and the count that `Script` computes |
| UserThrottle.KeyOutlivesSend | src/redis/index.ts:133-139 | after a recorded send the key outlives it by the window in whole seconds less 500 ms at least, and exactly when it falls short of the window |
| UserThrottle.DueSurvivesPruning | src/redis/index.ts:128-132 | pruning and expiry never remove a member a later check must count |
| ThrottleRefusals.RefusedOnlyWhenFull | src/redis/index.ts:124-142 | in every run a new send is refused only if the limit is zero or that many sends were recorded within the last window, and only a recorded send passes as a retry |
| ThrottleRefusals.RoomMeansAllowed | src/redis/index.ts:124-142 | where a window has passed since the send `limit` places back, the next one is recorded |
| ThrottleRefusals.RetriesAreFree | src/redis/index.ts:128-131 | in every run the retry of a send recorded within the last window, but for its last half second, is allowed and not counted again |
| UserThrottle.NearlyAWindowHoldsAtMostLimit | src/rate-limiter/user-throttle.ts:60-99 | over every run an interval 499 ms (and the lag) shorter than the window holds at most `limit` sends |
| UserThrottle.AWindowHoldsAtMostLimit | src/redis/index.ts:124-142 | the same over the window less only the lag, for runs in which no recording call hits the TTL rounding |
| ThrottleWindow.WholeWindowExactlyWhen | src/redis/index.ts:124-142 | for a limit of two or more, all runs keep the limit over the whole window exactly if no script lags behind its caller's clock reading and the window is at least 499 ms short of whole seconds |
| UserThrottle.AShortKeyCanOverflow | src/redis/index.ts:133-139 | the condition cannot be dropped at any step: whenever a recording call leaves the key short, some continuation records more than `limit` sends within one window |
| UserThrottle.RoundedTtlAdmitsAThird | src/redis/index.ts:135-139 | a run that admits a third send in a window of two |
| QuietHours.LocalTimeToUtc | src/services/engine/quiet-hours.ts:1-38 | the correction loop lands on the instant whose local reading is the target |
| QuietHours.CheckWindowAt | src/services/engine/quiet-hours.ts:49-130 | whether some window covers the instant, and the end of the first that does |
| QuietHours.JumpCovers | src/services/engine/quiet-hours.ts:49-130 | a jump goes forward by at most a day to a window's end, over covered instants only, overnight windows included |
| QuietHours.IsInQuietHours | src/services/engine/quiet-hours.ts:131-151 | one jump and up to ten more |
| QuietHours.AnswerIsFirstFree | src/services/engine/quiet-hours.ts:131-151 | with at most eleven different end times, the answer is the least uncovered instant from the start on exactly when some minute is uncovered |
| QuietHours.EndMinutesAtMost | src/services/engine/quiet-hours.ts:40-60 | eleven windows have at most eleven end times |
| QuietHours.FirstFreeIsUnique | src/services/engine/quiet-hours.ts:131-151 | only one instant can be the right answer |
| QuietHours.CapIsRightExactlyWhen | src/services/engine/quiet-hours.ts:138-150 | for any windows, the answer is the first free instant from every start and in every zone exactly if no twelve windows stand back to back, each the first in the list to cover the end of the one before |
| QuietHours.TwelveWindowsAreTooMany | src/services/engine/quiet-hours.ts:138-150 | twelve hourly windows for which the answer is still covered |
| BatchProcessor.BatchProcessor.Add | src/shared/batch-processor.ts:24-34 | the item goes to the end of the order, flushed at once exactly at a full batch with a slot free, else under a timer unless every slot is busy |
| BatchProcessor.BatchProcessor.FlushOnce | src/shared/batch-processor.ts:47-68 | the whole buffer becomes the next batch if a slot is free, keeping every item exactly once and in add order |
| BatchProcessor.BatchProcessor.TimerFires | src/shared/batch-processor.ts:81-86 | all that is buffered becomes one flush unless every slot is busy |
| BatchProcessor.BatchProcessor.FlushTurn | src/shared/batch-processor.ts:37-45 | a turn of `flush` makes all that is buffered one flush and leaves no timer |
| BatchProcessor.BatchProcessor.Answer | src/shared/batch-processor.ts:55-66 | the promises of the batch's own items, none settled before, are all rejected if the flush threw, and otherwise resolved each with the result at its own index or with nothing; no other is touched |
| BatchProcessor.BatchProcessor.Release | src/shared/batch-processor.ts:69-78 | the freed slot goes to the buffer exactly if that is a full batch without a timer, and otherwise what is buffered has a timer |
| BatchProcessor.AnswerKeepsSettled | src/shared/batch-processor.ts:55-66 | a promise is settled exactly if its batch was answered, and batches share no promise |
| BatchProcessor.EveryAddIsSettled | src/shared/batch-processor.ts:24-66 | once nothing is buffered and every flush has answered, every item ever added has its outcome, from its own place in the flush that carried it |
| CircuitBreaker.SuffixMeansLastAllFailed | src/shared/circuit-breaker.ts:56-69 | the failure count reaches n exactly if the last n completions all failed |
| CircuitBreaker.CircuitBreaker.Begin | src/shared/circuit-breaker.ts:22-45 | a call starts exactly if the breaker has not tripped, or the timeout since the last completion has passed and no probe runs; at most one probe ever runs |
| CircuitBreaker.CircuitBreaker.Finish | src/shared/circuit-breaker.ts:46-69 | in whatever order calls end, the breaker is closed exactly if fewer than the threshold of the latest completions failed in a row, and half open only while its probe runs |
| SettingsCache.ProjectSettingsCache.Get | src/rate-limiter/project-settings-cache.ts:43-74 | never answers from, nor joins, a lookup started before the last `invalidate`; at most one current lookup per project |
| SettingsCache.ProjectSettingsCache.Settle | src/rate-limiter/project-settings-cache.ts:54-63 | a value is cached exactly if no `invalidate` has come since its lookup started |
| SettingsCache.ProjectSettingsCache.Finally | src/rate-limiter/project-settings-cache.ts:64-70 | success and failure alike make room for the next lookup, unless a newer one has it |
| SettingsCache.ProjectSettingsCache.Invalidate | src/rate-limiter/project-settings-cache.ts:76-81 | nothing older than this moment is cached or joined any more |
| SettingsCache.ProjectSettingsCache.Clear | src/rate-limiter/project-settings-cache.ts:83-86 | the same for every project |
| SettingsCache.ProjectSettingsCache.Evict | src/rate-limiter/project-settings-cache.ts:32-42 | an entry that expires or is evicted, whenever that is, leaves freshness intact |
| SettingsCache.AnsweredKeepsFresh | src/rate-limiter/project-settings-cache.ts:54-63 | the in-flight test of `then` is exactly the test that the lookup is not out of date |

## Left out

- `DeliveryWorker.process`, scheduler, workflow engine, stream worker and idempotency guard, as wholes: their state lives in Redis and Postgres and is changed by many processes at once, so the protocols are machines on values; their loops and objects that one process owns are methods and classes.
- Redis, Postgres and stream clients, reconnects, logging, metrics, configuration, payload parsing: only their atomic effects on the stores appear.
- Providers, HTTP API, authentication, dashboard, command line: thin wrappers or network code.
- Waking: that events are delivered again after an event worker died, as long as a waiter is there and has not expired, counts as help from outside; a limit of 100 timers a poll is not modelled.
- Code-registered workflows and their `run` step: the determinism of arbitrary code is not the engine's to promise.
- The `messageId` the workflow engine gets back from a publish: carried, not interpreted.
- Enricher crash safety: a task enters the model when it reaches the engine. Handlers run inline keep no marker and no stream entry of their own, so that path is not modelled.
- A wipe of Redis while a rebuild is under way: the source relies on that not happening, and so do the results on wipes.
- ReleaseTiming.NeverReleasedBeforeEarliest: speaks of the earliest recorded send time only; for the latest it is false, and `Punctuality.EarlyReleaseExactlyWhen` says when.
- Delivery.Process: a rate-limit gate of a provider always answers.
- `TaskLease`: the fallback to `checkAndMark` for guards without `acquireLease`.
- `UserThrottle.Throttle`: window lengths are whole milliseconds; the fallback for values that are not finite numbers is that for negative ones.
- Quiet hours in zones with daylight saving, the invalid-zone path and the formatter's rendering of midnight.
- Batches of at most `maxSize`: not promised, since a buffer grows while all slots are busy.
- Inline (fused) processing, the AI worker, campaigns, the LRU cache's own order of eviction (any entry may go at any time).
