# RQ in Dafny

RQ is a job queue on Redis: clients enqueue jobs, workers execute them, schedulers move
jobs that have come due, and maintenance sweeps pick up what crashed workers left behind.
All of them act on the same Redis keys through small transactions. This project models
those transactions and the loops around them and proves what they keep, over every
interleaving, every run and every crash point the model allows.

Redis is a value: maps for hashes and sets, sequences for lists, and per-key versions where
WATCH matters. A client is a state machine whose steps are single commands or transactions.
Where the program updates state in place, a class carries the same fields and its methods
are proved against the functions that the lemmas are about.

## Files

| files | subject |
|---|---|
| `Common` | job ids, statuses, Redis lists |
| `DependencyStore`, `DependencyProtocol`, `WatchedProtocol`, `ProtocolHazards` | parking and waking dependent jobs: data, atomic protocol, WATCH/EXEC interleaving that refines it, and where it breaks |
| `DependencyQueue`, `CancelDependents` | the same operations as one undisturbed client runs them; `cancel(enqueue_dependents=True)` |
| `CrashModel`, `CrashRecovery` | no job is lost when clients die between commands, and each can be taken up again |
| `CrashStarts`, `CrashLimits` | how often a job is started when clients die between commands, and when the counters alone bound that |
| `CrashRuns`, `CrashHazards` | runs in which a job is lost, or put back twice for one retry, one for each assumption |
| `Lifecycle`, `LifecycleRuns`, `LifecycleHandlers` | status and registry agree, and how often a job can be started, over whole transactions; the worker's handlers |
| `Intervals`, `LifecycleWaits` | waiting times of retries and repeats, as loops and over whole lifecycle runs |
| `IntermediateQueue` | clean-up of jobs stuck between queue and worker |
| `SchedulerLocks`, `ScheduledDrain`, `SchedulerFleet`, `RQScheduler` | mutual exclusion of schedulers, draining the due set, both together, the scheduler's methods |
| `RoundRobin`, `Compact`, `EnqueueMany` | queue-order algorithms |
| `Heartbeat`, `Cron` | heartbeat arithmetic and the cron loop in time |

## What is assumed

- Dependencies: a job id is enqueued once; a worker reports success only for a job it was
  given; jobs are not deleted and unfinished parents do not expire. The theorems name the
  further conditions of a run, and `ProtocolHazards` has what happens without each of them:
  `CleanFinish` (`LostWakeUp`), `CleanRescan` (`EarlyStart`), `FirstFinish`
  (`PushedAgainBySecondSuccess`), `FinishedStay` (`FinishedParentCanceled`,
  `FinishedJobWokenAgain`), existing dependencies (`PushedTwice`, `StartedBeforeLateParent`),
  no failures allowed (`BothFailuresPush`).
- Crashes: `CrashModel.Assumed` lists what is asked of the environment, and `CrashHazards`
  has for each condition a run in which a job is lost without it. A scheduler does not read
  an id between the ZADD and the transaction that belongs to it (`ScheduledJobLost`);
  entries of live workers do not expire (`ExpiredEntryLost`), and one cleanup handles an
  abandoned entry at a time (`AbandonedJobLost`); a cleanup of the intermediate queue does
  not act on a job a live client attends to (`DequeuedJobLost`); a STARTED job is not
  canceled under the client that answers for its execution (`CanceledJobLost`), nor a
  SCHEDULED one between the ZADD and the transaction (`CanceledRetryLost`); a work horse
  does not die once its last transaction has gone through (`KilledHorseLost`). A work horse
  that dies before that leaves its job to its worker, and a job may be canceled at any other
  moment, the reading of its status and the transaction being separate steps.
- Starts: the bound in `CrashStarts` asks further that nobody fetches a job while another
  client has it in hand (`OneAtATime`). That is more than one cleanup at a time for an entry
  (`AbandonedJobPutBackTwice`); the assumptions above do not give it
  (`TakenUpJobPutBackTwice`).
- Scheduler locks: every running scheduler refreshes each name less than interval + 60
  seconds after it last acquired or refreshed it (`SchedulerLocks.Timely`). For the jobs
  themselves: nobody takes an id out of the scheduled registry between the moment a
  scheduler reads it and its transaction (`SchedulerFleet.NotLate`).
- Cron: one clock reading per iteration, work takes no time, sleeps are exact, intervals are
  positive, and a cron expression is a function from a time to a later one.
- Retry interval lists are not empty (`Lifecycle.SoundIntervals`): an empty list is an
  IndexError in the program, see below.

## Where the program does not keep its promise

Each of these is a lemma with the exact condition or a run that reaches it.

- A worker that succeeds while Redis shows its job as canceled, stopped or failed leaves the
  children DEFERRED with nothing left to wait for (`StrandedExactlyWhenBlocked`,
  `LostWakeUp`). Only one more scan of the dependents of one of their parents, or a cancel,
  takes them out of that state (`StrandedUntilScannedAgain`).
- A parent that is canceled after it has finished leaves the children DEFERRED although
  every parent succeeded (`FinishedParentCanceled`). What a success does push, exactly, is
  `PushesExactly`: it asks neither whether the child was pushed before nor whether the other
  parents ever succeeded. So a parent that runs again pushes a child again
  (`PushedAgainBySecondSuccess`), and a finished child can be put back
  (`FinishedJobWokenAgain`).
- A failed job requeued before `enqueue_dependents` looks at it wakes its children early
  (`RescanWakesExactlyWhenUnblocked`, `EarlyStart`).
- A dependency that does not exist yet when the child is enqueued counts as met: the child
  is pushed twice, or runs first (`PushedTwice`, `StartedBeforeLateParent`).
- With failures allowed, two parents that fail together both push the child
  (`BothFailuresPush`), and the cleanup of an abandoned parent pushes it while Redis still
  shows the parent as STARTED (`AbandonedParentStillStarted`).
- A waiting child canceled after the unwatched read of its hash and before EXEC is queued
  all the same, exactly then (`CanceledIsWokenExactly`, `CanceledChildIsWoken`).
- `ScheduledJobRegistry.schedule` takes a pipeline and ignores it (rq/registry.py:516-527),
  so the id is in the registry before the hash is saved and a scheduler can drop it
  (`ScheduledJobLost`).
- Two cleanups of one abandoned execution, a cleanup of an entry whose worker is only slow,
  or one that takes a live worker's job for stuck, can lose the job (`AbandonedJobLost`,
  `ExpiredEntryLost`, `DequeuedJobLost`). The maintenance lock does not exclude the first,
  because reading the registry also cleans it up (rq/registry.py:108-109,
  rq/registry.py:174-175).
- A job canceled while a worker executes it or puts it off can be lost (`CanceledJobLost`,
  `CanceledRetryLost`).
- The counters of a job do not bound how often it is started when clients die. A delayed
  retry or repeat is in the scheduled registry before its transaction saves the counter
  (rq/job.py:1692-1700, rq/repeat.py:104-114, rq/registry.py:300-303), so a death in between
  gives a start that is not counted, and this can go on without limit (`NoBound`). Each such
  death costs one start and no more (`StartsAreBounded`). The counters are a bound over all
  runs with crashes if and only if none of the retries and repeats the job has comes after a
  delay (`BoundSurvivesExactly`); `BoundedLife` is about runs of whole transactions.
- Two clients that have fetched one job both put it back, and one retry pays for both
  (`AbandonedJobPutBackTwice`, `TakenUpJobPutBackTwice`); so does one cleanup that finds two
  expired entries of the job (`TwoEntriesPushTwice`). Beyond whole transactions of distinct
  jobs the bound of `BoundedLife` does not hold then either.
- A worker whose work horse dies after its last transaction handles the failure once more,
  from its own copy, and can lose the job (`KilledHorseLost`).
- An id taken out of the scheduled registry after a scheduler has read it is pushed all the
  same (`UnscheduledTooLate`), a job put off to a later time after that is pushed at once and
  its new time is lost (`RescheduledTooLate`), and a scheduler that is late by nothing pushes jobs twice
  (`LateSchedulerPushesTwice`).
- The first-seen key of the intermediate queue is never cleared. A job that enters again
  within a day does not get its full minute of grace, but for the one case that the key was
  set in the very second of the first sweep (`GraceExactly`).
- Canceling a job while it executes can leave it in two registries
  (`CanceledWhileExecuting`). Status and registries come apart in this way, or when a job is
  given up with the default exception handler disabled, and in no other
  (`AgreementKeptExactly`).
- `Retry(interval=[])` makes `get_retry_interval` index an empty list
  (`RetryIndexInBounds`). The docstring of `Retry.get_interval` says the first value is used
  when the list runs out; the code uses the last. The `Repeat` documentation describes the
  intervals in list order; the code uses the list from the back
  (`RepeatWaitsAreReversed`).
- The docstring of `should_reacquire_locks` says 10 minutes; the constant it uses is 120
  seconds (rq/defaults.py:58), and so does the model (`TakenOverInTime`).
- Jobs scheduled before 1970 have a negative score and are never found due (`OthersStay`).
- `enqueue_many` ignores `at_front` of an entry with dependencies and uses the flag of the
  `Dependency` objects (`QueueAfterBatch`); two dependent entries with one id end in a
  KeyError after everything has been enqueued (`EnqueueMany.Queue.EnqueueMany`).
- In the grace minute an entry in the started registry may expire before the next heartbeat.
  With an interval below a minute it lasts exactly while the job is less than 60 - interval
  seconds over its timeout, or 61 - interval if the refresh was at a whole second; with a
  longer interval it stops to last before the timeout (`RefreshLastsExactly`,
  `EntriesLastExactly`).

## Model

| member | source | states |
|---|---|---|
| WatchedProtocol.InterleavedRefinesAtomic | rq/queue.py:657-690 | From the empty database, every interleaving of WATCH, read and EXEC commands of enqueuers and workers equals a serial run of its committed transactions in commit order |
| WatchedProtocol.RunsAreSerial | rq/queue.py:1440-1524 | The same from any state satisfying the system invariant, which is kept |
| WatchedProtocol.KnowsStable | rq/job.py:1767-1812 | What a client has read stays true, or a key it watches has changed, whatever any other client commits meanwhile |
| WatchedProtocol.DecisionIsMet | rq/job.py:1779-1812 | The answer computed from values read one by one is the answer `dependencies_are_met` has on one consistent store, with the statuses that count written out |
| WatchedProtocol.CommitUsesCurrentHashes | rq/queue.py:1453-1512 | A wake-up whose EXEC goes through writes what it would write from the current hashes, although it uses copies of hashes nobody watches |
| WatchedProtocol.EnqueueSimulates | rq/queue.py:657-690 | Every command of an enqueuer is no step or one enabled step of the atomic protocol |
| WatchedProtocol.ScanSimulates | rq/worker/base.py:1446-1509 | Every command of a worker waking dependents is no step or one enabled step of the atomic protocol |
| WatchedProtocol.NoWakeUpIsLost | rq/queue.py:668-678 | In interleaved runs a DEFERRED job has a dependency that exists and is not FINISHED, and is in the dependents set of each such dependency |
| WatchedProtocol.PushedExactlyOnce | rq/queue.py:1453-1512 | In interleaved runs a job enqueued behind existing dependencies has been pushed once if all of them have finished, and is still DEFERRED and not pushed otherwise |
| WatchedProtocol.NoEarlyStart | rq/job.py:1793-1812 | Any step of an interleaved run that wakes a job finds each of its dependencies finished, gone, finishing in that transaction, or failed where allowed (an abandoned parent under clean-up counts as failed), as long as a scan after a failure still finds that failure |
| WatchedProtocol.FastPathIsNotEarly | rq/queue.py:664-681 | In orderly runs the path without EXEC pushes a job whose dependencies all existed only when each of them has finished |
| WatchedProtocol.PickedExactly | rq/queue.py:1453-1466 | A pass of any size that reaches EXEC untouched picks, of the dependents that are met, exactly those whose hash was not canceled when it was read |
| WatchedProtocol.InterleavedRunsAreSafe | rq/worker/base.py:1450-1491 | Orderly interleaved runs keep the whole invariant: structure, no lost wake-up, exactly once |
| WatchedProtocol.PlainInterleavedRunsAreSafe | rq/worker/base.py:1450-1491 | The same without any condition on what wake-ups pick, when jobs name existing dependencies, allow no failures and are not canceled while waiting |
| DependencyProtocol.StoreStructureKept | rq/job.py:1728-1735 | Every transaction keeps dependents, dependencies and deferred registry consistent with the hashes |
| DependencyProtocol.NoLostWakeUpKept | rq/worker/base.py:1450-1491 | Every transaction but a success of a job Redis shows as canceled, stopped or failed keeps every DEFERRED job waiting for something unfinished |
| DependencyProtocol.ExactlyOnceKept | rq/queue.py:1453-1512 | Every orderly transaction keeps the push count of each job at one if its dependencies have all finished, and at zero before |
| DependencyProtocol.CleanRunsLoseNothing | rq/worker/base.py:1450-1491 | Over whole serial runs, clean finishes are enough for no wake-up to be lost |
| DependencyProtocol.WakesAreNotEarly | rq/queue.py:1453-1466 | A transaction wakes a job only if each dependency is finished, gone, finishing in it, or failed where allowed; an abandoned parent under clean-up counts as failed |
| DependencyProtocol.WakesSpareTheOthers | rq/job.py:1790-1796 | No dependent is woken by a parent its scan finds canceled or stopped, and by a failed one only if it allows that |
| DependencyProtocol.PushesReachQueues | rq/queue.py:1480-1505 | Each counted push is one entry on the list of the job's own origin, and no transaction adds another entry anywhere |
| DependencyProtocol.PlainRunsAreOrderly | rq/worker/base.py:1450-1491 | In plain runs only DEFERRED jobs are ever woken, so finished jobs stay finished |
| DependencyStore.EnqueueAllQueues | rq/queue.py:1480-1505 | A wake-up pushes each chosen job once, onto its own origin queue and no other |
| DependencyStore.MetForExactly | rq/job.py:1767-1812 | A dependent is met if and only if its parent is neither canceled nor stopped, and failed only where allowed, and each other dependency is gone, finished, or failed where allowed |
| DependencyStore.EnqueueAllOrder | rq/queue.py:1480-1505 | Each queue keeps its jobs together; woken jobs with the front flag precede them, the last one first, and the others follow in waking order |
| ProtocolHazards.PushesExactly | rq/job.py:1779-1812 | A success can push a given dependent if and only if the parent is neither canceled nor stopped, and failed only where allowed, and every other dependency is finished, gone, or failed where allowed; whether it was pushed before plays no part, and a DEFERRED one is then always pushed |
| ProtocolHazards.RescanPushesExactly | rq/registry.py:305-315 | The same for the scans after a failure and after an abandonment, with the parent status each of them goes by |
| ProtocolHazards.StrandedExactlyWhenBlocked | rq/job.py:1779-1800 | When its last parent succeeds, a child stays DEFERRED if and only if that parent is found canceled or stopped, or failed where the child does not allow it, and then no dependency is left that it could wait for |
| ProtocolHazards.StrandedUntilScannedAgain | rq/queue.py:1441-1478 | Such a child leaves its state if and only if it is canceled or the dependents of a parent that does not block it are scanned once more, and no success that does so is a parent's first |
| ProtocolHazards.LostWakeUp | rq/job.py:1793-1796 | A run that reaches this, for each blocking status |
| ProtocolHazards.RescanWakesExactlyWhenUnblocked | rq/worker/base.py:755-758 | The look at dependents after a failure wakes a child that allows no failures if and only if the parent is no longer marked failed, stopped or canceled |
| ProtocolHazards.EarlyStart | rq/worker/base.py:755-758 | A run in which a child is queued while its only dependency is queued |
| ProtocolHazards.PushedTwice | rq/job.py:811-835 | A run in which both parents succeed once and the child is pushed twice, because one did not exist when it was parked |
| ProtocolHazards.StartedBeforeLateParent | rq/queue.py:664-681 | On the path without EXEC the same late parent lets the job be queued first |
| ProtocolHazards.FinishedJobWokenAgain | rq/job.py:1793-1812 | A run in which a late parent puts a finished child back on the queue |
| ProtocolHazards.FinishedParentCanceled | rq/job.py:1807-1812 | A run in which both parents succeed once and the child stays DEFERRED, because one was canceled after it had finished |
| ProtocolHazards.PushedAgainBySecondSuccess | rq/worker/base.py:1450-1491 | A run in which every parent has succeeded once and a second success of one pushes the child again |
| ProtocolHazards.BothFailuresPush | rq/worker/base.py:755-758 | A run in which two parents fail together and each scan pushes a child that allows failures |
| ProtocolHazards.AbandonedParentStillStarted | rq/registry.py:305-315 | A run in which a child that allows failures is queued while its parent is shown as STARTED |
| ProtocolHazards.CanceledIsWokenExactly | rq/queue.py:1453-1466 | In a pass of any size, a met dependent that is canceled by the time of the EXEC is queued if and only if the copy of its hash read earlier did not say so |
| ProtocolHazards.CanceledChildIsWoken | rq/queue.py:1453-1466 | Such an interleaving, command by command, from any state with a worker about to wake its job's only dependent |
| DependencyQueue.Client.RegisterDependency | rq/job.py:1706-1735 | The SADD loop adds the job to the dependents set of every dependency, and them to its dependencies |
| DependencyQueue.Client.SetupDependencies | rq/queue.py:638-694 | Parks the job if and only if a dependency that exists has not finished |
| DependencyQueue.Client.EnqueueDependents | rq/queue.py:1416-1524 | Wakes a dependent if and only if it is saved and not canceled, its parent is neither canceled nor stopped nor failed against its wish, and its other dependencies are gone, finished, or failed where allowed; drops those from the dependents set |
| DependencyQueue.Client.HandleJobSuccess | rq/worker/base.py:1446-1509 | Undisturbed, the handler is one FinishJob transaction of the protocol |
| CancelDependents.Canceler.Cancel | rq/job.py:1187-1221 | Undisturbed, cancel takes one attempt if no dependent is ready and exactly two otherwise, wakes once each saved, not canceled dependent whose other recorded dependencies are gone, finished, or failed where allowed, and no other, and leaves the job CANCELED and in no other place if it was only where its status named it |
| CancelDependents.PickedExactly | rq/job.py:1774-1812 | Which dependents that are, whatever the status of the canceled job |
| CancelDependents.SecondPassWakesNobody | rq/queue.py:1453-1471 | The attempt after a conflict finds nobody left to wake, so it cannot conflict with itself again |
| CancelDependents.OnlyInCanceledRegistry | rq/job.py:1205-1212 | After any number of attempts such a job is CANCELED, in the canceled registry, and neither on its queue nor in any other registry |
| CrashModel.NoJobIsLost | rq/queue.py:1583-1602 | After any run with crashes and cancellations anywhere, a saved job without a terminal status is in the queue, the intermediate queue, or the started, deferred or scheduled registry |
| CrashRecovery.EveryJobCanBeTakenUp | rq/worker/base.py:1327-1341 | After any such run, once all other clients have died or finished, an idle client can start or give up each job that is neither over nor deferred, by sweeping, draining and dequeuing within the assumptions |
| CrashRecovery.EverybodyCanDie | rq/worker/worker_classes.py:119-142 | From any state the other clients can all die, which leaves Redis as it is |
| CrashModel.NothingLostKept | rq/worker/base.py:1327-1341 | Every single command or transaction keeps that, however many clients are in the middle of something, the death of a work horse under its worker included |
| CrashModel.OwnershipKept | rq/registry.py:276-315 | The entries a live client answers for stay in the started registry, belong to saved jobs, and belong to no other client, through every step of anyone |
| CrashModel.AttendedKept | rq/intermediate_queue.py:100-119 | No step lets more clients attend to a job than it has entries in the intermediate queue |
| CrashHazards.ScheduledJobLost | rq/registry.py:516-527 | From any state, a scheduler between the ZADD and the transaction of `schedule_job` makes the job vanish |
| CrashHazards.ScheduledJobKept | rq/queue.py:1206-1215 | The same steps in the other order put the job on the queue |
| CrashHazards.AbandonedJobLost | rq/registry.py:276-315 | Two cleanups that read one abandoned entry and one hash both reschedule the job; the first retry is carried out, and a crash of the second cleanup loses the job |
| CrashHazards.ExpiredEntryLost | rq/registry.py:276-315 | The entry of a slow worker expires and the job is carried out elsewhere; the slow worker then fails, crashes and loses it |
| CrashHazards.DequeuedJobLost | rq/intermediate_queue.py:100-119 | A cleanup that takes a live worker's job for stuck loses it to a later crash |
| CrashHazards.CanceledJobLost | rq/job.py:1187-1221 | A job canceled while it executes, whose execution then fails, is lost to a crash of its worker |
| CrashHazards.CanceledRetryLost | rq/registry.py:516-527 | A job canceled between the ZADD and the transaction of its retry ends SCHEDULED and in no registry |
| CrashHazards.KilledHorseLost | rq/worker/worker_classes.py:119-142 | A work horse puts its job off and dies; its worker handles the failure again from its own copy while the job is carried out elsewhere, dies as well and loses it |
| CrashStarts.StartsAreBounded | rq/job.py:1692-1700 | Over every run with crashes in which nobody fetches a job another has in hand, its starts are at most what its creations and requeues grant, plus one for each delayed retry or repeat whose client, or work horse, died between the ZADD and the transaction or is there now |
| CrashStarts.InOneHandKept | rq/registry.py:300-303 | In such runs the counters in a client's copy, and in the worker's copy behind a work horse, are those in the hash, less what has been counted already |
| CrashStarts.StepBalance | rq/repeat.py:104-114 | Each command or transaction pays for the starts it makes possible: with a counter, with a grant, or with a ZADD whose transaction is still to come or never comes |
| CrashLimits.BoundSurvivesExactly | rq/job.py:1670-1675 | Over all runs with crashes of a job created once, 1 + retries_left + repeats_left + m bounds its starts if and only if each retry and repeat it has comes at once and so do the Retries it returns |
| CrashLimits.NoBound | rq/registry.py:516-527 | Otherwise for every number some run within the assumptions starts the job at least that often |
| CrashLimits.AtOnceIsBounded | rq/job.py:1692-1704 | Without delays every such run keeps to the bound |
| CrashHazards.AbandonedJobPutBackTwice | rq/registry.py:300-315 | Two cleanups of one entry push the job twice and leave one retry less |
| CrashHazards.TakenUpJobPutBackTwice | rq/worker/base.py:751-753 | So do, within the assumptions of the crash model, a cleanup of a dead worker's entry and a live worker with the same job |
| Lifecycle.PlacesAreIndependent | rq/job.py:1243-1295 | A transaction changes where its own job is, exactly as the one-job machine says, and nothing about any other job |
| Lifecycle.AgreementKeptExactly | rq/job.py:1569-1592 | A transaction keeps status and location in agreement if and only if it does not cancel an executing job and does not give one up with the default handler off |
| Lifecycle.CanceledWhileExecuting | rq/job.py:1268-1275 | A canceled execution that then succeeds ends in the canceled and the finished registry |
| Lifecycle.QueueOrderKept | rq/queue.py:518-534 | Other jobs keep their order on the queue; a job that becomes QUEUED is added at one end, the front exactly when asked for or configured for retries |
| LifecycleRuns.StatusNamesTheRegistry | rq/queue.py:1333-1346 | In every state that whole transactions reach, a job's registries are exactly the one its status names (and the finished one if an earlier success was repeated), it is queued once if QUEUED and never otherwise, and a deleted job is nowhere else |
| LifecycleRuns.AgreementKept | rq/registry.py:191-223 | The agreement holds along every careful run of enqueue, park, schedule, start, success, failure, retry, abandon, requeue and cancel |
| LifecycleRuns.ReenqueueUsesBudget | rq/job.py:1692-1703 | While a job is saved, retries_left + (m - number_of_retries) + repeats_left drops by one with every whole transaction that puts it back, clean-ups included, and with no other; only a last success whose result is not kept deletes it. A delayed put-back cut short is in CrashStarts |
| LifecycleRuns.BoundedLife | rq/worker/base.py:1373-1406 | In runs of whole transactions without requeues a job is started at most 1 + retries_left + m + repeats_left times for each time it is created, in terms of the values it was created with. With crashes inside a transaction's preparation CrashStarts.StartsAreBounded takes its place |
| LifecycleRuns.BoundIsAttained | rq/repeat.py:92-114 | For all values of the counters some run starts the job exactly that often |
| LifecycleHandlers.Worker.HandleJobFailure | rq/worker/base.py:697-758 | The handler carries out exactly the failure transaction: a stopped job is STOPPED, retries or not, one without retries FAILED, and any other waits for the first interval of its plan, on the queue if that is 0 |
| LifecycleHandlers.Worker.HandleJobRetry | rq/worker/base.py:1373-1421 | A returned Retry gives the job up from its max on, and otherwise makes it wait for the next entry of its list, or the last one |
| LifecycleHandlers.Worker.HandleJobSuccess | rq/worker/base.py:1464-1491 | Success records the job as finished unless its result_ttl is 0; with t repeats left it waits for the t-th entry of the padded list, on the queue if that is 0; without repeats and result the job is deleted |
| LifecycleHandlers.Worker.CleanupStarted | rq/registry.py:276-315 | The loop with one pipeline and one final removal puts each job by its hash from before; for distinct jobs that equals abandoning one after another, and entries without a job are only removed |
| LifecycleHandlers.TwoEntriesPushTwice | rq/registry.py:276-315 | With two expired entries the job is put back twice and uses one retry |
| LifecycleHandlers.Worker.Cancel | rq/job.py:1187-1221 | Cancel fails on a canceled job and otherwise is the cancel transaction, with the registry chosen by the status in Redis |
| Intervals.RetryIndexInBounds | rq/job.py:1670-1675 | The index is in bounds if and only if the list is not empty |
| Intervals.RetryWaitsArePlan | rq/job.py:1670-1675 | m failures wait the first interval m - n extra times and then the list in order, or the last m entries of a longer list |
| Intervals.Counters.FailUntilGivenUp | rq/job.py:1692-1703 | The loop of failures produces exactly that sequence and ends with no retries left |
| Intervals.Counters.ReturnRetries | rq/job.py:1642-1655 | t returned Retries wait the list in order and then its last entry over and over |
| Intervals.RepeatWaitsAreReversed | rq/repeat.py:97-102 | t repeats wait the list, padded with its last entry or cut to t, in reverse |
| Intervals.Counters.RepeatUntilDone | rq/repeat.py:92-114 | The loop of repeats produces exactly that sequence and ends with no repeats left |
| LifecycleWaits.RepeatsFollowThePlan | rq/repeat.py:92-114 | Over every run the waits of a job's successes are the padded or cut list in reverse, as far as it has got, and the repeats used are as many |
| LifecycleWaits.RetriesFollowThePlan | rq/job.py:1670-1704 | Over every run the waits after failures, abandonments and stuck pick-ups together are the retry plan, as far as it has got |
| LifecycleWaits.ReturnsFollowTheList | rq/job.py:1642-1655 | Over every run in which the job returns the same Retry, its waits are the list from its count on and then the last entry |
| IntermediateQueue.Cleaner.Cleanup | rq/intermediate_queue.py:100-119 | The loop is one sweep: one visit per id listed at its start |
| IntermediateQueue.HandledExactly | rq/intermediate_queue.py:100-119 | However often ids are listed, a sweep gives a job up if and only if it is listed, not started, saved, and was first seen more than a minute and at most a day ago; ids without a job are dropped and nothing else leaves the list |
| IntermediateQueue.HandledInTime | rq/intermediate_queue.py:68-82 | Over any sweeps, whatever each of them finds around it, a job that stays stuck is given up by the first one more than a minute after it was first seen, and by none before |
| IntermediateQueue.GraceExactly | rq/intermediate_queue.py:44-52 | A job is left alone for a minute from the first sweep that finds it if and only if no key of its id is left by then, or one set at that same time |
| SchedulerLocks.MutualExclusion | rq/scheduler.py:104-125 | In every timely run with crashes, no two running schedulers hold the same queue name, also in the middle of acquiring |
| SchedulerLocks.AcquiredExactlyWhenFree | rq/scheduler.py:109-112 | In such runs SET NX succeeds if and only if the name was never taken, was released, or its owner's last refresh is interval + 60 seconds ago; never while a running scheduler holds it |
| SchedulerLocks.LateByNothing | rq/scheduler.py:182-193 | For every interval, waiting exactly interval + 60 seconds lets a second scheduler hold the name too |
| RQScheduler.Scheduler.AcquireLocks | rq/scheduler.py:104-125 | Exactly the free names are taken, for interval + 60 seconds, and the prepared registries are reset |
| RQScheduler.Scheduler.Heartbeat | rq/scheduler.py:182-193 | Exactly the acquired names whose keys still exist are extended |
| RQScheduler.Scheduler.EnqueueScheduledJobs | rq/scheduler.py:142-169 | A chunk of the due jobs of exactly the acquired names is moved, each pipeline doing all pushes before all removals |
| RQScheduler.Scheduler.Iterate | rq/scheduler.py:215-228 | One round of the loop takes the free names on the first round, and later exactly if a name is missing and the last attempt is more than 120 seconds ago; it drains exactly the names then held, 1000 jobs each, and leaves each of them good for interval + 60 seconds |
| RQScheduler.TakenOverInTime | rq/scheduler.py:94-102 | A name whose key is gone from some round on is held after any round more than 120 seconds later, whatever happened before |
| RQScheduler.NothingTriedBefore | rq/scheduler.py:94-102 | Rounds within 120 seconds of an attempt take no name |
| ScheduledDrain.EnoughPassesDrain | rq/registry.py:543-555 | Enough passes of any positive chunk size leave no due job and give the same result as one unlimited pass |
| ScheduledDrain.PassesMove | rq/scheduler.py:149-168 | k passes move exactly the first k chunks of the due jobs, in score order |
| ScheduledDrain.QueueAfterMoved | rq/job.py:566-571 | Jobs sent to the back follow the old queue in score order, jobs sent to the front precede it in reverse, ids without a job are passed over |
| ScheduledDrain.SentExactly | rq/job.py:566-571 | A moved job goes to the front if and only if it has the flag, or the flag for retries and has been executed |
| ScheduledDrain.OthersStay | rq/registry.py:553-555 | Draining removes an entry if and only if its score is between 0 and the timestamp |
| ScheduledDrain.DrainInStages | rq/scheduler.py:149-168 | Draining at an earlier time first ends in the same state as draining once at the later time |
| ScheduledDrain.DrainedByTwo | rq/scheduler.py:150-168 | Two schedulers that read the same due set push every job in it twice |
| SchedulerFleet.EachDueJobIsPushedOnce | rq/scheduler.py:142-169 | In every timely run of any schedulers, with crashes between read and pipeline and clients at work in between, every id put in is as often in the registry, on the queue, with a worker or removed as it was put in: none is pushed twice and none lost |
| SchedulerFleet.ExecDelivers | rq/scheduler.py:158-168 | In such runs each pipeline takes exactly the ids that were read out of the registry and pushes each that has a hash exactly once, whatever happened since the read |
| SchedulerFleet.TurnLeavesNothingDue | rq/scheduler.py:150-168 | A turn with a large enough chunk leaves no job due |
| SchedulerFleet.UnscheduledTooLate | rq/scheduler.py:150-168 | An id unscheduled between the read and the pipeline is both canceled and pushed |
| SchedulerFleet.RescheduledTooLate | rq/scheduler.py:150-168 | An id put off to another time between the read and the pipeline is pushed at once and is in the registry no more |
| SchedulerFleet.LateSchedulerPushesTwice | rq/scheduler.py:182-193 | For every interval a scheduler that refreshes no sooner than its lock expires leads to a job pushed twice |
| RoundRobin.BoundedWaiting | rq/worker/base.py:689-692 | A queue that keeps holding a job is served within its position + 1 dequeues, whatever other clients push, pop or delete |
| RoundRobin.MovesForward | rq/worker/worker_classes.py:286-288 | Serving a queue ahead of it moves a queue strictly forward, by the served position + 1 |
| RoundRobin.ServedNoLater | rq/queue.py:1574-1580 | While a queue holds a job no later queue is served and the call does not return empty-handed |
| RoundRobin.AskedInOrder | rq/queue.py:1640-1668 | Right before a queue is served each queue ahead of it has been asked and was empty, in a sweep that began with the call or behind a dead id |
| RoundRobin.AlwaysARotation | rq/worker/base.py:689-692 | The worker's list is a rotation of its original queues after any calls |
| RoundRobin.TakesTurns | rq/worker/base.py:1113-1123 | When the queue in front always has a job, the queues are served in turn forever |
| RoundRobin.Worker.DequeueAny | rq/queue.py:1640-1668 | Undisturbed, the first live job of the first queue that has one is returned, and exactly the dead ids ahead of it are gone |
| RoundRobin.Worker.ReorderQueues | rq/worker/worker_classes.py:286-288 | The list is cut behind the served queue and the two parts exchanged |
| Compact.CompactUnderInterference | rq/queue.py:504-516 | With other clients pushing at both ends and workers popping in between, the queue is what others put in front and a rest that is, with what workers took of it, an order-preserving merge of the old live ids and the ids pushed at the back |
| Compact.FrontsConserved | rq/queue.py:504-516 | What others put in front meanwhile is still there or was popped, each id as often as it was put |
| Compact.StoppedHalfway | rq/queue.py:510-516 | At any moment exactly the ids not dealt with yet are in no queue |
| Compact.MergeCounts | rq/queue.py:510-516 | Such a merge loses and duplicates nothing |
| Compact.Queue.Compact | rq/queue.py:504-516 | Alone, compact filters the queue to its live ids, and fails on an empty queue |
| EnqueueMany.Queue.EnqueueMany | rq/queue.py:879-985 | A batch is rejected with nothing done if and only if a unique entry has dependencies or no id; otherwise it stops with DuplicateJobError if and only if a unique entry asks for an id that is saved or that an earlier one asks for, with exactly the unique entries before it pushed; otherwise it is carried out and returns the jobs in input order unless two dependent entries share an id |
| EnqueueMany.QueueAfterBatch | rq/queue.py:917-982 | The queue becomes the reverse of the front pushes, the old queue, and the back pushes, in the order unique, normal, met dependent entries |
| EnqueueMany.PartitionCovers | rq/queue.py:917-948 | Every entry is in one of the three classes |
| EnqueueMany.PartitionOnce | rq/queue.py:917-948 | No entry is in two classes or twice in one |
| EnqueueMany.ClassesAre | rq/queue.py:917-948 | The three classes by the entries' own fields: unique ones without dependencies, others without dependencies, and those with dependencies |
| EnqueueMany.BatchSaves | rq/queue.py:893-964 | After a batch of distinct ids each entry is saved with its own fields, QUEUED unless it has dependencies that are not met, and then DEFERRED |
| EnqueueMany.BatchRegisters | rq/dependency.py:11-27 | An entry with dependencies is among the dependents of each of them, and in the deferred registry if and only if it has to wait |
| EnqueueMany.SentExactly | rq/queue.py:926-940 | Entries without dependencies go by their own front flag, the others by that of their dependencies |
| EnqueueMany.MetExactly | rq/dependency.py:11-27 | A dependent entry is pushed at once if and only if each of its dependencies is finished, gone, or failed where allowed |
| EnqueueMany.WaitsForTheBatch | rq/queue.py:952-964 | An entry that depends on another dependent entry of its batch always waits |
| EnqueueMany.CompleteExactly | rq/queue.py:966-985 | Looking results up by id covers every dependent entry if and only if their ids are distinct |
| EnqueueMany.Queue.SaveUniqueJob | rq/scripts.py:58-100 | The script saves and pushes if and only if no hash of that id exists |
| EnqueueMany.Queue.EnqueueUnique | rq/queue.py:917-926 | Unique entries are pushed up to the first taken id |
| Heartbeat.TtlWithinBounds | rq/worker/base.py:1062-1066 | Past the kill check the ttl is between 0 and interval + 60, and 0 only exactly one minute over the timeout |
| Heartbeat.NeverExpiresExactlyWhenLate | rq/registry.py:317-333 | Without the kill check an entry would never expire, exactly from 61 seconds over the timeout on |
| Heartbeat.KilledExactly | rq/worker/worker_classes.py:83-100 | The horse is killed at the first wait that ends more than 60 seconds over a timeout, if it has not exited before, and never otherwise |
| Heartbeat.RefreshesInRange | rq/worker/worker_classes.py:85-102 | Every refresh of the monitor loop has a ttl in range and a finite score, for every run |
| Heartbeat.EntriesLast | rq/executions.py:104-111 | In particular, with an interval below a minute no entry refreshed within the timeout expires before the next planned refresh |
| Heartbeat.RefreshLastsExactly | rq/worker/base.py:1062-1066 | An entry lasts until the next planned refresh if and only if the working time is below timeout + 60 - interval, one second more at a whole second; from an interval of a minute on, if it is at most timeout + 59 - interval (60 at a whole second) when that is before the timeout |
| Heartbeat.LastsExactly | rq/executions.py:104-111 | In general, if and only if its ttl is longer than the interval, or as long and set at a whole second |
| Heartbeat.EntriesLastExactly | rq/executions.py:104-111 | Over the whole loop, exactly the refreshes that satisfy that condition last until the next planned one, and all of a job without a timeout |
| Heartbeat.Worker.MonitorWorkHorse | rq/worker/worker_classes.py:83-116 | The loop sends exactly those refreshes, kills the horse exactly when it is overdue, and leaves the score of the last refresh |
| Cron.EnqueuedOnTheGrid | rq/cron.py:105-136 | Every enqueue of a job is at the next time of its schedule, in order, never early and never late |
| Cron.EveryTimeIsReached | rq/cron.py:341-350 | For every k the k-th time of every job is reached |
| Cron.IntervalJobsKeepTime | rq/cron.py:105-136 | An interval job is enqueued at t0 + k * interval for every k and at no other time |
| Cron.CronJobsFollowTheirExpression | rq/cron.py:105-136 | A cron job is enqueued first at the next matching time after its registration, or at once if that has passed, and then at every next matching time |
| Cron.SleepIs | rq/cron.py:295-320 | The sleep ends at the earliest next time at the latest, is at most 60 seconds, and is zero if and only if a job is due |
| Cron.NeverTooOften | rq/cron.py:105-136 | Whatever the clock does, an interval job is not enqueued again within its interval |
| Cron.CronScheduler.EnqueueJobs | rq/cron.py:284-293 | Exactly the due jobs are enqueued, once, and get their next time |
| Cron.CronScheduler.CalculateSleepInterval | rq/cron.py:295-320 | The method computes that sleep |
| Cron.CronScheduler.Start | rq/cron.py:332-350 | The loop's clock and jobs after n rounds are those the theorems are about |

## Left out

- Job deletion other than after a last success, result and failure expiry, groups, callbacks, serialization, connection errors, pub/sub commands and signals.
- Synchronous queues, which execute in the caller.
- Workers on several queues in the crash model: they pop without an intermediate list, so a crash there can lose the job.
- Execution records and repeat counters across WatchError retries of `handle_job_success`; the interleaved model has neither.
- `enqueue_many` on a caller's pipeline, and the registration of the queue name, which an all-unique batch never sends.
- `enqueue_many` with dependencies while other clients write: registration is sent outside a transaction.
- `cancel(remove_from_dependencies=True)`, and removals from the queue by `Queue.remove` outside cancel.
- Restart of a scheduler's child process with a stale set of acquired names, and `release_locks` without names, which sends DEL without keys.
- `SimpleWorker.get_heartbeat_ttl`, which has no monitor loop around it.
- Cron expression parsing, time zones, configuration files and the validation in the `CronJob` constructor.
- CrashModel.NoJobIsLost: cancel with `enqueue_dependents=True` sends its removals right after WATCH, so the crash model has the plain cancel only.
- LifecycleRuns.BoundedLife: a delayed put-back is one transaction, so a crash between its ZADD and its EXEC is not among the events; CrashStarts has it, and CrashLimits the condition under which the same bound holds with it.
- CrashStarts.StartsAreBounded: a manual requeue reads and saves the hash in one step, and a WATCH retry of `handle_job_success`, which counts a repeat again, is not modelled.
- SchedulerLocks.MutualExclusion: a scheduler and the process it forks count as one, since both use the same set of names.
- Heartbeat.EntriesLast: says nothing about the grace minute, where it is false from the point on that EntriesLastExactly gives.
- SchedulerFleet.EachDueJobIsPushedOnce: fetching the hashes of the ids that were read is one step with the pipeline; the crash model has them apart.
- Results kept for no time (`result_ttl=0`) in the dependency and crash models; the lifecycle has them.
