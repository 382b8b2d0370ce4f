# API Monitor: the concurrent core, verified

API Monitor is a Go service that checks HTTP endpoints on a schedule. This project models the part of it that is hard
to get right and proves what its comments and documentation promise: the scheduler, the worker pool, the context they
share, the way `main` shuts them down, and the sequential code they rest on.

- **The worker pool** (`WorkerPool`, `PoolProperties`, `AbortedCalls`, `PoolObject`) is a state machine over any number of workers,
  queue slots and callers. A step is one communication of one goroutine. Where Go's `select` has several ready cases,
  several steps are enabled and any of them may happen. `PoolObject.Pool` is the same pool as a mutable object: each
  method is one `select` or one loop of the source and is proved to take exactly the step it reports.
- **Reconciliation** (`Schedules`, `Disturbance`, `SchedulerLoop`). `SchedulerLoop.Scheduler` mutates the `running`
  map with the source's loops, including deletion while the map is walked in an arbitrary order; its methods are proved
  equal to functions on a `Plan`, and the theorems are about those functions. A *generation* is one goroutine started
  for a target, named by its position, so that survived, restarted and orphaned can be told apart. One object stands
  for one call of `Start`, whose state lives on that call's stack.
- **The whole process** (`Monitor`, `MonitorInvariant`, `MonitorProperties`, `Refinement`, `History`, `Frames`,
  `MonitorRuns`, `Overlap`, `BlockedCallers`, `Fairness`, `Shutdown`, `Progress`, `Witnesses`) composes main,
  the HTTP server, the scheduler's goroutine, one goroutine and one ticker per generation, and the pool, under one root
  context. A reconciliation pass is many steps here, so checks run and contexts end in the middle of it.
- **Time** (`TickGrid`): one generation's checks and its ticker with the one-slot channel, from the start of the first
  check, before which no ticker exists.
- **Results** (`CheckResults`, `Checker`) and **the in-memory repository** (`Ordering`, `MemoryRepository`).
- `Sums`, `Targets` and `Wrappers` hold what the others share.

Every theorem quantifies over all limits, all runs and all listings unless its row says otherwise.

## Where the code and its comments differ

The model follows the code. Each difference has a lemma that says what does hold, with its exact condition, and where
a run is needed to see it, a lemma that exhibits one.

- *At most one outstanding check per target* (`internal/scheduler/scheduler.go:275-282`, `docs/architecture.md:391-405`,
  `docs/architecture.md:519-529`) fails for generations whose context is done, in two ways. A restart cancels the old
  generation without awaiting it, and its job carries no context and runs under the pool's, so it can still be queued
  or running while the replacement submits another (`Witnesses.ChecksOverlapAcrossRestart`,
  `Overlap.RestartCanOverlap`). And a single generation can overlap with itself, after its target has been disabled or
  deleted (`Overlap.StopCanOverlap`) and during shutdown (`Overlap.SignalCanOverlap`): it gives up a call whose job is
  in flight, its select takes a tick instead of the context, and Submit's first select sends instead of giving up.
  `Overlap.OverlapIff` says exactly when two checks of an ID can be in flight before the scheduler moves again, for
  every ID in every state, before and after the end of the root context. Among generations whose context is not done
  the promise holds (`MonitorProperties.ChecksNeverOverlap`).
- *Checks it again every t.Interval until ctx is canceled* (`internal/scheduler/scheduler.go:260-264`) fails by the same
  tick: a generation whose context is done can still begin another check if and only if it has not exited
  (`Overlap.StillChecksIff`).
- *The goroutines blocked in Submit are bounded by the number of targets* (`internal/worker/pool.go:246-250`) fails when
  the wait group counts more goroutines than targets are scheduled, and only then; while the root context lasts that
  is when a cancelled generation has not exited (`BlockedCallers.CallersExceedTargetsIff`).
- *Fairness between targets for free* (`docs/architecture.md:524-529`) holds from the moment a job is queued
  (`Fairness.ServedInTurn`), but callers that wait for room are in no order: a new one can have its whole check carried
  out before a blocked one gets into the queue (`AbortedCalls.OvertakenBeforeTheQueueIff`).
- *Evenly spaced regardless of how long any individual check takes* (`internal/scheduler/scheduler.go:266-273`) fails
  in two ways. The ticker starts when the first check has ended, so the second check comes late by the first one's
  duration (`TickGrid.FirstCheckShifts`), and a later check longer than the interval leaves the grid
  (`TickGrid.LongChecksDrift`). All checks are evenly spaced if and only if the first takes no time and the others stay
  within the interval (`TickGrid.EvenlySpacedIffChecksAreShort`).
- *Nothing can still be using* the database pool when it is closed (`cmd/api-monitor/main.go:134-140`) fails when
  `server.Shutdown` runs into its deadline with a request in progress (`Witnesses.RequestCanOutliveDatabase`,
  `Shutdown.RequestOutlivesDatabaseIff`). It holds of the scheduler and the pool on both exit paths
  (`MonitorProperties.NothingRunsAfterClose`).
- *An error from Submit means no worker had started, or no result had arrived* (`internal/worker/pool.go:221-224`,
  `internal/worker/pool.go:238-241`) fails because the last `select` may prefer the context to a result that is already
  there (`AbortedCalls.AnswerCanBeDiscarded`). A call inside Submit can still end that way if and only if its context
  is done and its job is held, delivered, or within reach of a worker; while the pool runs, if and only if its context
  is done (`AbortedCalls.ResultDroppedIff`). An aborted caller can rely on `PoolProperties.RefinesDirectCheck`.
- *Once ctx is done, a worker simply stops pulling new jobs* (`internal/worker/pool.go:122-125`) fails because the
  worker's `select` may prefer the queue: a queued job can still be picked if and only if a worker is left
  (`AbortedCalls.StillPickedIff`).
- *Already running with the current configuration* (`internal/scheduler/scheduler.go:203-206`) keeps repeated passes
  quiet only for listings that give each ID one meaning (`Disturbance.RepeatIsQuietIffConsistent`); for two schedulable
  targets with one ID every pass restarts (`Disturbance.RepeatedIdThrashes`). Neither repository can produce such a
  listing: the in-memory one is keyed by ID (`MemoryRepository.ListingIsCanonical`), and in PostgreSQL the ID is the
  primary key. Only another TargetLister could.

## Model

| member | source | states |
|---|---|---|
| `CheckResults.CheckResult.Validate` | internal/checker/check_result.go:105-144 | No error if and only if the result is sound: identity, time and latency present, a status in 100..599 exactly for the two outcomes with a response, otherwise status 0 and a message, no message on success. Each error is returned if and only if its own rule is the first violated. |
| `CheckResults.New` | internal/checker/check_result.go:83-97 | Accepts exactly the parameters that describe a sound result and then carries every field over; otherwise its error is the first rule violated. |
| `Checker.Check` | internal/checker/check.go:80-130 | For every outcome of the request: no panic exactly when the target has an ID, and the result reports the exchange. It is a success if and only if a response in 100..599 equal to the expected status arrived; cancelled, timeout and connection error each have their exact cause and text. |
| `Checker.Finish` | internal/checker/check.go:147-160 | Panics exactly when the fields do not make a sound result, naming the first rule violated; otherwise the result has exactly these fields. |
| `Checker.DecimalReadsBack` | internal/checker/check.go:105-108 | The status code in the text of a non-standard response is its decimal numeral: digits only, without leading zeros, reading back as the code. |
| `Checker.GenuineIsValid` | internal/checker/check_result.go:104-144 | A result that some exchange explains passes Validate and belongs to its target. |
| `WorkerPool.New` | internal/worker/pool.go:89-113 | Panics exactly without a checker; otherwise at least one worker and one slot, the configured numbers where positive and 10 and 100 where not. |
| `WorkerPool.SafeCheck` | internal/worker/pool.go:192-206 | A check that completes is handed on unchanged. A panic becomes, field by field, the connection error of the same target stamped with the recovery's time, with latency 0 and the panic's text, if the target has an ID, and the zero value if it has none. |
| `WorkerPool.PanicSubstitute` | internal/worker/pool.go:192-206 | The substitute for a panic is a valid connection error of the same target if and only if the target has an ID; else the zero value. |
| `WorkerPool.Check` | internal/worker/pool.go:215-235 | Hands an answer on unchanged; an aborted submission becomes, field by field, the `canceled` result of the target stamped with the current time, with latency 0 and the text of the context's error; panics only for a target without an ID. |
| `WorkerPool.StepInv` | internal/worker/pool.go:133-181 | Every step of any goroutine keeps the pool's invariant: job histories, callers, queue, logs, holders and wait group agree. |
| `WorkerPool.RunInv` | internal/worker/pool.go:256-285 | The invariant holds in every state of every run. |
| `PoolProperties.Conservation` | internal/worker/pool.go:94-162 | In every reachable state each enqueued job is in exactly one of queue, one worker's hands, delivered; nothing else is; no job is enqueued or picked twice; the queue stays within its capacity and the workers within their number. |
| `PoolProperties.DeliveryNeverBlocks` | internal/worker/pool.go:31-41 | Whenever a worker is about to deliver, the job's one-slot channel is empty, also when the caller left long ago or the check panicked. |
| `PoolProperties.StartJoinsEveryWorker` | internal/worker/pool.go:133-148 | When Start has returned all workers were launched and have exited, and no worker step is possible any more. |
| `PoolProperties.RefinesDirectCheck` | internal/worker/pool.go:208-285 | An answered call saw enqueue, pick-up, end and delivery of exactly one execution on its own target between its begin and its return, and got that execution's report. A call without a done context is always answered. An aborted one had at most one execution. |
| `PoolProperties.AnswersBelongToTheirCaller` | internal/worker/pool.go:192-235 | An answer is valid and carries the caller's target ID, for real checks and for panics. |
| `PoolProperties.FirstInFirstOut` | internal/worker/pool.go:158-159 | From any state and over any run, a job with k jobs ahead is taken by the (k+1)-th later dequeue and by no other. |
| `PoolProperties.PickedInTurn` | internal/worker/pool.go:259-277 | The same as a fact about the two logs of the queue: later submissions do not overtake. |
| `PoolProperties.NeverDeadlocked` | internal/worker/pool.go:150-181 | While the pool runs, an unreturned call leaves some worker or caller a step to take, however full the queue is. |
| `PoolProperties.RankDrops` | internal/worker/pool.go:256-285 | Every step of a worker or of a caller inside Submit lowers an explicit rank. |
| `PoolProperties.ComesToRest` | internal/worker/pool.go:150-181 | Between new calls and cancellations the pool takes at most Rank steps, under an adversarial `select`. |
| `PoolProperties.RestMeansAnswered` | internal/worker/pool.go:237-285 | At rest in normal running every call has returned and every uncancelled one was answered. |
| `AbortedCalls.ResultDroppedIff` | internal/worker/pool.go:259-284 | For every state and every call inside Submit: some run without further cancellations makes it return an error although its result has arrived, or although a worker has started, if and only if its context is done and its job is held or delivered or a worker is left to pick it; while the pool runs a worker is always left. |
| `AbortedCalls.StillPickedIff` | internal/worker/pool.go:154-162 | For every state, also after the pool's context is done: a queued job can still be picked if and only if a worker is running or yet to be launched. |
| `AbortedCalls.AnswerCanBeDiscarded` | internal/worker/pool.go:279-284 | A run of the smallest pool that drops a result, for every target and every end of its check. |
| `PoolObject.Pool.constructor` | internal/worker/pool.go:107-112 | A new pool is the state machine's initial state. |
| `PoolObject.Pool.LaunchWorkers` | internal/worker/pool.go:137-144 | The loop adds every worker to the wait group and leaves all of them idle, changing nothing else. |
| `PoolObject.Pool.NewJob` | internal/worker/pool.go:256-257 | A new call with an empty one-slot channel. |
| `PoolObject.Pool.TrySelect` | internal/worker/pool.go:259-277 | The first select takes a ready arm, any of them, and the default arm if and only if none is ready; the new state is that step's. |
| `PoolObject.Pool.BlockedSelect` | internal/worker/pool.go:272-276 | The inner select sends or gives up, whichever is ready. |
| `PoolObject.Pool.ResultSelect` | internal/worker/pool.go:279-284 | The last select takes the result or gives up, whichever is ready. |
| `PoolObject.Pool.WorkerSelect` | internal/worker/pool.go:154-161 | A worker exits or takes the queue's head; with both ready, either. |
| `PoolObject.Pool.RunHeldCheck` | internal/worker/pool.go:168-169 | The held job's check runs under safeCheck and its report is what will be delivered. |
| `PoolObject.Pool.DeliverHeld` | internal/worker/pool.go:180-180 | The send is possible and puts that report into the job's channel. |
| `PoolObject.Pool.AwaitWorkers` | internal/worker/pool.go:146-147 | When the wait group is empty every worker has exited. |
| `Schedules.PassComputesDesired` | internal/scheduler/scheduler.go:187-258 | After a successful pass the schedule maps each ID to its last listed target if that one is enabled with a positive interval, and holds nothing else, whatever was scheduled before, whatever the map order, also with repeated IDs. |
| `Schedules.PassesConverge` | internal/scheduler/scheduler.go:160-172 | Over any sequence of passes, some failing, the schedule is the one the most recent successful listing asks for. |
| `Schedules.SweepWellFormed` | internal/scheduler/scheduler.go:195-211 | The loop over the listing keeps records and uncancelled generations in one-to-one correspondence. |
| `Schedules.PruneWellFormed` | internal/scheduler/scheduler.go:213-217 | So does the loop over the map. |
| `Schedules.CancelAllCancels` | internal/scheduler/scheduler.go:151-154 | Cancelling everything recorded cancels every generation ever started and not yet cancelled: none is unrecorded. |
| `SchedulerLoop.Scheduler.StopTarget` | internal/scheduler/scheduler.go:250-258 | Cancels and forgets the recorded generation of an ID, if any. |
| `SchedulerLoop.Scheduler.StartTarget` | internal/scheduler/scheduler.go:228-247 | For any target, records and spawns a new generation, or skips a non-positive interval; for an enabled, unrecorded target, as its one caller has it, records and generations stay in correspondence. |
| `SchedulerLoop.Scheduler.SweepListed` | internal/scheduler/scheduler.go:194-211 | The loop over the listing equals its specification, and `seen` is the set of listed IDs. |
| `SchedulerLoop.Scheduler.StopUnseen` | internal/scheduler/scheduler.go:213-217 | Deleting while walking the map, in any order, stops exactly the unseen IDs. |
| `SchedulerLoop.Scheduler.Reconcile` | internal/scheduler/scheduler.go:187-218 | Equals the specified pass; a failed listing changes nothing; after a success the schedule is the desired one. |
| `SchedulerLoop.Scheduler.CancelRecorded` | internal/scheduler/scheduler.go:151-154 | The deferred loop leaves no generation uncancelled and the records untouched. |
| `SchedulerLoop.Scheduler.DiscoverUntilDone` | internal/scheduler/scheduler.go:158-172 | One pass at once and one per discovery tick, in order. |
| `SchedulerLoop.Scheduler.Start` | internal/scheduler/scheduler.go:145-173 | The schedule follows the last successful listing; at the end every generation is cancelled and was added to the wait group. |
| `Disturbance.SurvivesIffListed` | internal/scheduler/scheduler.go:195-217 | For a consistent listing a generation survives a pass if and only if its exact target is listed. |
| `Disturbance.ExactDisturbance` | internal/scheduler/scheduler.go:195-217 | The targets of the generations started and cancelled are exactly the two differences between the desired and the old schedule; no ID is started twice. |
| `Disturbance.RepeatIsQuietIffConsistent` | internal/scheduler/scheduler.go:203-208 | Repeating a pass on the same listing changes nothing if and only if the listing gives each ID with a schedulable entry one meaning. |
| `Disturbance.RepeatedIdThrashes` | internal/scheduler/scheduler.go:195-211 | For any two schedulable targets with one ID, every further pass over them cancels every earlier generation and starts two more, one of which it cancels again, while the schedule stays the same. |
| `Disturbance.PassGrows` | internal/scheduler/scheduler.go:228-258 | A pass only adds and cancels generations; none changes its target or is revived. |
| `TickGrid.RateBound` | internal/scheduler/scheduler.go:275-304 | Fired ticks are received, buffered (at most one) or dropped. Counting the first check, at most 1 + (now - ticker creation) / interval checks have begun, and only one before the ticker exists; check n never begins before n intervals have passed since the end of the first. |
| `TickGrid.GapBound` | internal/scheduler/scheduler.go:290-304 | Served promptly, the second check begins exactly interval plus the first check's duration after the first, and every later one at most max(interval, duration of the one before) after the one before. |
| `TickGrid.NoDrift` | internal/scheduler/scheduler.go:266-273 | While no tick-driven check outlasts the interval no tick is lost and check n begins exactly n intervals after the first check ended, however long that one took. |
| `TickGrid.EvenlySpacedIffChecksAreShort` | internal/scheduler/scheduler.go:266-273 | All checks are evenly spaced if and only if the first took no time and every later one but the most recent ended within the interval; those after the first are, if and only if those did. |
| `TickGrid.FirstCheckShifts` | internal/scheduler/scheduler.go:290-293 | A prompt run of short checks whose first gap is longer than the interval by the first check's duration. |
| `TickGrid.LongChecksDrift` | internal/scheduler/scheduler.go:266-273 | A prompt run with a long check that leaves the grid and loses a tick. |
| `MonitorInvariant.StepInv` | internal/scheduler/scheduler.go:145-304 | Every step of main, server, scheduler, generations and pool keeps the invariant of the whole process. |
| `MonitorInvariant.RunInv` | cmd/api-monitor/main.go:91-147 | It holds in every state of every run. |
| `MonitorInvariant.RootCancelInv` | cmd/api-monitor/main.go:91-92 | Ending the root context, at any moment, ends every generation's and the pool's and keeps everything else. |
| `MonitorProperties.ContainsAPoolRun` | cmd/api-monitor/main.go:85-116 | The pool inside any run of the process is in a state the pool reaches on its own, so what is proved of the pool's reachable states holds inside the process. |
| `MonitorProperties.ChecksNeverOverlap` | internal/scheduler/scheduler.go:275-304 | For every target ID at most one job of a generation whose context is not done is queued, executing or undelivered, and that generation is waiting in Submit for exactly it. |
| `MonitorProperties.ParkedIffNotAbandoned` | internal/worker/pool.go:31-36 | A job outlives its caller exactly when the call was aborted, and then the caller's context is done; otherwise its generation is still waiting for it. |
| `MonitorProperties.CallersBoundedByTargets` | internal/worker/pool.go:246-250 | In every reachable state the callers inside Submit for uncancelled generations are never more than the scheduled targets. |
| `BlockedCallers.CallersBoundedByLive` | internal/worker/pool.go:246-250 | In every state the callers inside Submit, of cancelled generations too, are never more than the wait group counts. |
| `BlockedCallers.CallersExceedTargetsIff` | internal/worker/pool.go:246-250 | For every state, before and after the end of the root context: more callers than scheduled targets can be inside Submit before the scheduler moves again if and only if the wait group counts more goroutines than targets are scheduled; while the root context lasts, if and only if a cancelled generation has not exited. |
| `Overlap.OverlapIff` | internal/scheduler/scheduler.go:275-304 | For every ID in every state: two of its checks can be in flight before the scheduler moves again and before another context ends if and only if they are already, or, while the root context lasts, a cancelled generation of it has not exited, or it is scheduled, an abandoned job of it is in flight and the pool is not a single worker behind a full queue without any of its jobs; or, after that, some generation of it has not exited and either a worker is left or the free slots of the queue and its queued jobs make two. |
| `Overlap.StartCanOverlapIff` | internal/scheduler/scheduler.go:203-211 | The same at the moment a target is about to be started: exactly when any generation of it has not exited or such a job is left. |
| `Overlap.RestartCanOverlap` | internal/scheduler/scheduler.go:203-211 | Restarting a scheduled target with a changed configuration always makes an overlap possible. |
| `Overlap.StopCanOverlap` | internal/scheduler/scheduler.go:198-217 | Stopping a disabled or unlisted target that is scheduled always makes it possible for its one generation to have two checks in flight. |
| `Overlap.SignalCanOverlap` | internal/scheduler/scheduler.go:296-303 | So does the end of the root context, for every scheduled target. |
| `Overlap.StillChecksIff` | internal/scheduler/scheduler.go:290-304 | A generation whose context is done can begin another check if and only if it has not exited. |
| `Fairness.ServedInTurn` | docs/architecture.md:519-529 | In every reachable state and over every run from it: the jobs picked until job k of the queue is are the first of the queue in their order, those of generations with a live context are of pairwise different targets, and there are no more of them than scheduled targets. |
| `AbortedCalls.OvertakenBeforeTheQueueIff` | internal/worker/pool.go:259-277 | A call that has not queued its job can see the whole check of another such call carried out first, if and only if a worker is left. |
| `Progress.NeverDeadlocked` | internal/scheduler/scheduler.go:290-327 | In the whole process, while the root context lasts, a generation inside Check can be answered or the pool can take a step towards its answer. |
| `Progress.EveryCheckCanBeAnswered` | internal/worker/pool.go:150-181 | From every such state some run of the pool alone brings the answer, whatever the queue holds. |
| `Progress.RestWhileRunning` | internal/scheduler/scheduler.go:145-304 | While the root context lasts, a process that cannot move until the outside acts is serving, its schedule is that of the last successful listing, its workers are all launched and idle, its queue is empty, every check has returned, every scheduled generation waits for its next tick, the scheduler for its next discovery tick, every cancelled generation has exited, and the wait group counts exactly the scheduled targets. |
| `MonitorProperties.NoOrphans` | internal/scheduler/scheduler.go:149-156 | A generation that has not exited is recorded under its own target's ID or cancelled; one with a live context has not exited; the wait group counts the unexited ones; none is left when Start returns. |
| `Refinement.SchedulerRefinesReconciliation` | internal/scheduler/scheduler.go:145-218 | Over every run of the process, however the other goroutines interleave: while the scheduler lists or waits, its records and generations are exactly what the sequential passes make of the answers of List in this run, whole listings in order; after Start's deferred part, what the deferred cancellation makes of that. So all results about passes hold inside the process. |
| `Refinement.ScheduleFollowsListings` | internal/scheduler/scheduler.go:135-144 | Whenever the scheduler is in its select the schedule is what the last successful answer of List in this run asks for, and each scheduled target has a running goroutine closed over exactly that target. |
| `History.OneListingPerTick` | internal/scheduler/scheduler.go:158-172 | In every run List has been called once at once and once per discovery tick taken, and no more ticks are taken than have fired. |
| `History.DiscoveryRunsIff` | internal/scheduler/scheduler.go:162-163 | A discovery tick can fire exactly from the end of the first pass, successful or not, until the select sees the end of the context. |
| `History.DiscoveryWaitsIff` | internal/scheduler/scheduler.go:165-172 | A discovery tick that has fired waits, through a pass in progress, exactly until the select takes it or sees the end of the context; the select always has its ticker. |
| `History.TickerRunsIff` | internal/scheduler/scheduler.go:290-303 | A generation's ticker can fire exactly from its creation, which follows the end of the first check, until the generation leaves, also during a check. |
| `History.TickWaitsIff` | internal/scheduler/scheduler.go:275-282 | A tick that has fired waits, through a check in progress, exactly until the generation takes it or leaves. |
| `History.OneCheckPerTick` | internal/scheduler/scheduler.go:290-304 | In every run a generation has made one first check once it has begun and one more per tick taken, and no more ticks are taken than have fired. |
| `Progress.CanFollowAnyListing` | internal/scheduler/scheduler.go:165-172 | From every state while the root context lasts, in the middle of a pass or not, and for every listing: a discovery tick and the scheduler's own steps can lead to its select with exactly the schedule that listing asks for. |
| `Progress.ResultReachesGeneration` | internal/worker/pool.go:168-181 | For every check in progress whose caller has not returned and every result that some exchange with its target explains: some run hands exactly that result to the caller. |
| `MonitorProperties.ResultsAreValid` | internal/worker/pool.go:192-235 | Whatever Pool.Check hands to a generation, after a check, a panic or an aborted submission, is valid and is for its own target; for an aborted submission it is `canceled`, and the generation's context is done. |
| `MonitorProperties.NothingRunsAfterClose` | cmd/api-monitor/main.go:118-147 | After the database pool is closed, by signal or by server failure, no listing, no check, no worker and no generation can take a step; the one step left is the end of a request that outlived Shutdown. |
| `History.MainInOrder` | cmd/api-monitor/main.go:118-147 | In every run main goes through its shutdown once and in one order: notice, Shutdown, stop, scheduler, pool, database; a request can begin exactly until Shutdown has returned. |
| `History.MainRemembers` | cmd/api-monitor/main.go:91-132 | In every run: requests in progress are those begun and not ended; the server counts as drained, as failed, as up, and the root context as done, exactly by what has happened, and signal, listener failure and the end of a request are possible exactly then. |
| `Shutdown.EveryStepDescends` | internal/scheduler/scheduler.go:290-304 | Before and after the end of the root context, every step but the signal lowers an explicit rank, although workers may still pick, generations may still take ticks, and reconcile may still start some. |
| `Shutdown.RunsAreFinite` | internal/scheduler/scheduler.go:145-173 | Within any finite budget of ticks, discovery ticks, listed targets and requests, every run of the process from any state is finite, under an adversarial `select`. |
| `Shutdown.ShutdownTerminates` | internal/scheduler/scheduler.go:145-173 | Within any finite budget of ticks, discovery ticks, listed targets and requests, every run from there is finite, with Rank as the bound. |
| `Shutdown.StuckMeansShutDown` | cmd/api-monitor/main.go:141-147 | The only stuck states have every generation and worker exited, both Starts returned, and main finished. |
| `Shutdown.ClosesOverRequests` | cmd/api-monitor/main.go:125-146 | A shut-down process can always finish while leaving every request in progress where it is. |
| `Shutdown.RequestOutlivesDatabaseIff` | cmd/api-monitor/main.go:128-140 | When Shutdown has returned, a request can outlive the database pool if and only if one is in progress then; a clean return excludes it. |
| `Witnesses.ChecksOverlapAcrossRestart` | internal/worker/pool.go:159-169 | A run in which two workers execute checks of the same target ID. |
| `Witnesses.RequestCanOutliveDatabase` | cmd/api-monitor/main.go:125-146 | A run that closes the database pool under a request in progress. |
| `Ordering.BeforeMeans` | internal/storage/memory_target_repository.go:65-70 | The comparison is by name, and by ID among equal names, where one string precedes another if it ends or has the smaller byte at the first position where they part. |
| `Ordering.ListingUnique` | internal/storage/memory_target_repository.go:65-70 | There is one strictly ascending enumeration by name, then ID. |
| `MemoryRepository.MemoryTargetRepository.constructor` | internal/storage/memory_target_repository.go:21-23 | An empty repository. |
| `MemoryRepository.MemoryTargetRepository.CreateTarget` | internal/storage/memory_target_repository.go:29-38 | The store afterwards holds the target under its ID if that was free; otherwise an error and no change. |
| `MemoryRepository.MemoryTargetRepository.Get` | internal/storage/memory_target_repository.go:42-51 | Exactly the target stored under that ID, or not found. |
| `MemoryRepository.MemoryTargetRepository.UpdateTarget` | internal/storage/memory_target_repository.go:76-85 | The store afterwards holds the new target under its ID if that was stored; otherwise an error and no change. |
| `MemoryRepository.MemoryTargetRepository.DeleteTarget` | internal/storage/memory_target_repository.go:89-98 | The store afterwards lacks the ID if it was stored; otherwise an error and no change. |
| `MemoryRepository.MemoryTargetRepository.Collect` | internal/storage/memory_target_repository.go:61-64 | The slice holds every stored target once, in whatever order the map yields. |
| `MemoryRepository.MemoryTargetRepository.List` | internal/storage/memory_target_repository.go:57-72 | Each stored target once, by name and among equal names by ID, byte by byte. |
| `MemoryRepository.EveryRunIsKeyed` | internal/storage/memory_target_repository.go:29-98 | Over every operation sequence each key is its target's ID. |
| `MemoryRepository.ListingIsCanonical` | internal/storage/memory_target_repository.go:53-72 | Any two listings of the same store are equal, have distinct IDs and the store's size, and a reconciliation pass repeated on one changes nothing. |

## Left out

- Real HTTP, TLS and body draining: what `client.Do` does is an arbitrary `Exchange`. Assumed of it: error texts are not empty, latency is not negative, the clock is not zero, fresh IDs are not empty.
- PostgreSQL repository, migrations and pool setup: their behaviour rests on server semantics that are not in the code. The composed model lets List return anything or fail.
- REST handlers, DTOs, middleware, router and configuration loading: transport and parsing over the standard library. In the composed model a request is only something that begins, uses the database and ends.
- Incidents and alerts: one transition only, or not built.
- Logging, queue_wait figures and stack traces.
- What Go's runtime does beyond the language: `select` chooses freely among the cases that are ready when it takes one. In the runtime a goroutine already blocked in its select is committed to its Done case by the cancellation itself and can take no later tick or job, and blocked senders are served in their order; the phases Selecting and Idle do not tell a blocked goroutine from one about to evaluate its select. Results of the form "can still" are therefore about what the language permits.
- Fairness of `select`: not assumed. Termination comes from a rank and a finite budget of outside events.
- The Go runtime: goroutines, channels, mutexes and contexts are taken to behave as documented. Cancelling a context reaches its children in one step. A lock makes a repository operation one step.
- A panic outside safeCheck, which would end the process: only a target without an ID causes one (`WorkerPool.Check` and `Checker.Check` say so exactly), and target validation excludes it. The composed model has no such crash.
- WorkerPool.StepInv: the pool's protocol is a state machine on values, because its goroutines interleave between statements; `PoolObject.Pool` holds the in-place form, one method per select or loop. The endless loops around the selects are the runs of the state machine.
- MonitorInvariant.StepInv: generations, scheduler and main are a state machine on values for the same reason; `SchedulerLoop.Scheduler` holds reconciliation in place. Receiving a tick and entering Submit is one step, and so are Submit's return and the return to the select. OnResult is unset, as main leaves it.
- TickGrid.GapBound: assumes a ticker that fires exactly on time and a loop that creates its ticker and takes a waiting tick at once, as do the other results about prompt runs; the rate bound assumes none of this.
- MonitorProperties.CallersBoundedByTargets: leaves out the callers of cancelled generations, for which the source's bound fails; `BlockedCallers.CallersBoundedByLive` and `BlockedCallers.CallersExceedTargetsIff` cover them.
- SchedulerLoop.Scheduler.Start: takes the outcomes of the listings it makes as a sequence; wg.Wait is in the composed model.
- MemoryRepository.MemoryTargetRepository.List: `sort.Slice` is represented by the contract of a sort of items with distinct IDs, with an insertion sort behind it. Strings are compared char by char, a char standing for a byte.
- scheduler.New, which panics on missing dependencies, and the default discovery interval.
- The operating system's default reaction to a second signal after `stop()`.
