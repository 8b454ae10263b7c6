/** The life of the jobs of one queue as a sequence of whole transactions
    (rq/queue.py, rq/job.py, rq/worker/base.py, rq/registry.py, rq/repeat.py):
    where a job is recorded, and how often it can be started. */
module Lifecycle {
  import opened Common
  import I = Intervals

  /** A job hash. `None` for retries_left, number_of_retries and repeats_left reads as 0. */
  datatype Job = Job(
    status: JobStatus,
    retriesLeft: nat,
    retryIntervals: Option<seq<nat>>,
    retryAtFront: bool,
    retries: nat,
    repeatsLeft: nat,
    repeatIntervals: seq<nat>)

  /** What Redis holds, and which jobs some worker is executing. The scheduled registry has
      the delay of each entry, from which its score is computed. */
  datatype State = State(
    jobs: map<JobId, Job>,
    queue: seq<JobId>,
    started: set<JobId>,
    deferred: set<JobId>,
    scheduled: map<JobId, nat>,
    finished: set<JobId>,
    failed: set<JobId>,
    canceled: set<JobId>,
    executing: set<JobId>)

  /** One transaction. `recorded` is false when the worker's default exception
      handler is disabled, which leaves out the failed registry. `kept` is false when
      the result_ttl is 0: a success is then not recorded, and the job is deleted. */
  datatype Event =
    | EnqueueNew(j: JobId, job: Job, front: bool)
    | ParkNew(j: JobId, job: Job)
    | ScheduleNew(j: JobId, job: Job, delay: nat)
    | Wake(j: JobId, front: bool)
    | Drain(j: JobId, front: bool)
    | StartJob
    | Succeed(j: JobId, kept: bool)
    | FailJob(j: JobId, stopped: bool, recorded: bool)
    | ReturnRetry(j: JobId, max: nat, intervals: seq<nat>)
    | Abandon(j: JobId)
    | CleanStuck(recorded: bool)
    | Requeue(j: JobId, front: bool)
    | Cancel(j: JobId)

  // ---------- Building blocks of the transactions ----------

  function Put(s: State, j: JobId, job: Job, st: JobStatus): State {
    s.(jobs := s.jobs[j := job.(status := st)])
  }

  /** `_enqueue_job`: QUEUED, saved and pushed. */
  function ToQueue(s: State, j: JobId, job: Job, front: bool): State {
    Put(s, j, job, Queued).(queue := Push(s.queue, j, front))
  }

  /** `schedule_job`: SCHEDULED, saved and in the scheduled registry. */
  function ToScheduled(s: State, j: JobId, job: Job, delay: nat): State {
    Put(s, j, job, Scheduled).(scheduled := s.scheduled[j := delay])
  }

  /** FAILED or STOPPED; both are kept in the failed registry. */
  function ToFailed(s: State, j: JobId, job: Job, st: JobStatus, recorded: bool): State {
    Put(s, j, job, st).(failed := if recorded then s.failed + {j} else s.failed)
  }

  /** Again at once when the interval is 0, later otherwise. */
  function Again(s: State, j: JobId, job: Job, interval: nat, front: bool): State {
    if interval == 0 then ToQueue(s, j, job, front) else ToScheduled(s, j, job, interval)
  }

  /** `Job.retry`: one retry used. */
  function Retried(job: Job): Job {
    if job.retriesLeft > 0 then job.(retriesLeft := job.retriesLeft - 1) else job
  }

  function Repeated(job: Job): Job {
    if job.repeatsLeft > 0 then job.(repeatsLeft := job.repeatsLeft - 1) else job
  }

  function RepeatAfter(job: Job): nat
    requires job.repeatsLeft > 0
  {
    if job.repeatIntervals == [] then 0 else I.RepeatInterval(job.repeatsLeft - 1, job.repeatIntervals)
  }

  predicate SoundIntervals(job: Job) {
    job.retryIntervals.Some? ==> job.retryIntervals.value != []
  }

  /** What a failed execution leads to: stopped, tried again, or given up. */
  function AfterFailure(s: State, j: JobId, job: Job, stopped: bool, recorded: bool): State
    requires SoundIntervals(job)
  {
    if stopped then ToFailed(s, j, job, Stopped, recorded)
    else if job.retriesLeft > 0 then
      Again(s, j, Retried(job), I.RetryInterval(job.retriesLeft, job.retryIntervals), job.retryAtFront)
    else ToFailed(s, j, job, Failed, recorded)
  }

  predicate RetriesExceeded(job: Job, max: nat) {
    job.retries > 0 && job.retries >= max
  }

  /** `handle_job_retry`. */
  function AfterReturnedRetry(s: State, j: JobId, job: Job, max: nat, intervals: seq<nat>): State {
    if RetriesExceeded(job, max) then ToFailed(s, j, job, Failed, true)
    else Again(s, j, job.(retries := job.retries + 1), I.ReturnedInterval(job.retries, intervals), false)
  }

  /** `_handle_success`, then `Repeat.schedule` if repeats are left, and otherwise
      `cleanup`, which deletes the job if its result is not kept. */
  function AfterSuccess(s: State, j: JobId, job: Job, kept: bool): State {
    var s1 := if kept then Put(s, j, job, Finished).(finished := s.finished + {j}) else s;
    if job.repeatsLeft > 0 then Again(s1, j, Repeated(job), RepeatAfter(job), false)
    else if kept then s1
    else Deleted(s, j, job.status)
  }

  /** `_remove_from_registries`: the registry is chosen by the job's status. */
  function Unregistered(s: State, j: JobId, st: JobStatus): State {
    var s1 := s.(queue := RemoveFirst(s.queue, j));
    match st
    case Finished => s1.(finished := s1.finished - {j})
    case Deferred => s1.(deferred := s1.deferred - {j})
    case Started => s1.(started := s1.started - {j})
    case Scheduled => s1.(scheduled := s1.scheduled - {j})
    case Failed => s1.(failed := s1.failed - {j})
    case Stopped => s1.(failed := s1.failed - {j})
    case Canceled => s1.(canceled := s1.canceled - {j})
    case _ => s1
  }

  /** `delete` with remove_from_queue=False. */
  function Deleted(s: State, j: JobId, st: JobStatus): State {
    Unregistered(s, j, st).(queue := s.queue, jobs := s.jobs - {j})
  }

  function EndExecution(s: State, j: JobId): State {
    s.(started := s.started - {j}, executing := s.executing - {j})
  }

  /** A job as `create_job` makes it: nothing used up yet. */
  predicate Fresh(job: Job) {
    job.retries == 0 && SoundIntervals(job)
  }

  predicate Enabled(s: State, e: Event) {
    match e
    case EnqueueNew(j, job, _) => j !in s.jobs && Fresh(job)
    case ParkNew(j, job) => j !in s.jobs && Fresh(job)
    case ScheduleNew(j, job, _) => j !in s.jobs && Fresh(job)
    case Wake(j, _) => j in s.jobs && j in s.deferred
    case Drain(j, _) => j in s.jobs && j in s.scheduled
    case StartJob => s.queue != [] && s.queue[0] in s.jobs
    case Succeed(j, _) => j in s.jobs && j in s.executing
    case FailJob(j, _, _) => j in s.jobs && j in s.executing && SoundIntervals(s.jobs[j])
    case ReturnRetry(j, max, _) => j in s.jobs && j in s.executing && max >= 1
    case Abandon(j) => j in s.jobs && j in s.started && SoundIntervals(s.jobs[j])
    case CleanStuck(_) => s.queue != [] && s.queue[0] in s.jobs && SoundIntervals(s.jobs[s.queue[0]])
    case Requeue(j, _) => j in s.jobs && j in s.failed
    case Cancel(j) => j in s.jobs && s.jobs[j].status != Canceled
  }

  function Apply(s: State, e: Event): State
    requires Enabled(s, e)
  {
    match e
    case EnqueueNew(j, job, front) => ToQueue(s, j, job, front)
    case ParkNew(j, job) => Put(s, j, job, Deferred).(deferred := s.deferred + {j})
    case ScheduleNew(j, job, delay) => ToScheduled(s, j, job, delay)
    case Wake(j, front) => ToQueue(s, j, s.jobs[j], front).(deferred := s.deferred - {j})
    case Drain(j, front) => ToQueue(s, j, s.jobs[j], front).(scheduled := s.scheduled - {j})
    case StartJob =>
      var j := s.queue[0];
      Put(s, j, s.jobs[j], Started).(queue := s.queue[1..], started := s.started + {j}, executing := s.executing + {j})
    case Succeed(j, kept) => EndExecution(AfterSuccess(s, j, s.jobs[j], kept), j)
    case FailJob(j, stopped, recorded) => EndExecution(AfterFailure(s, j, s.jobs[j], stopped, recorded), j)
    case ReturnRetry(j, max, intervals) => EndExecution(AfterReturnedRetry(s, j, s.jobs[j], max, intervals), j)
    case Abandon(j) => EndExecution(AfterFailure(s, j, s.jobs[j], false, true), j)
    case CleanStuck(recorded) => AfterFailure(s.(queue := s.queue[1..]), s.queue[0], s.jobs[s.queue[0]], false, recorded)
    case Requeue(j, front) => ToQueue(s, j, s.jobs[j], front).(failed := s.failed - {j})
    case Cancel(j) =>
      var s1 := Unregistered(s, j, s.jobs[j].status);
      Put(s1, j, s.jobs[j], Canceled).(canceled := s1.canceled + {j})
  }

  const Empty := State(map[], [], {}, {}, map[], {}, {}, {}, {})

  /** The job an event is about. */
  function Subject(s: State, e: Event): JobId
    requires Enabled(s, e)
  {
    if e.StartJob? || e.CleanStuck? then s.queue[0] else e.j
  }

  // ---------- One job's view of all this ----------

  /** Everything the state says about one job. */
  datatype Place = Place(
    job: Option<Job>,
    queued: nat,
    started: bool,
    deferred: bool,
    scheduled: Option<nat>,
    finished: bool,
    failed: bool,
    canceled: bool,
    executing: bool)

  ghost function View(s: State, j: JobId): Place {
    Place(if j in s.jobs then Some(s.jobs[j]) else None, multiset(s.queue)[j], j in s.started, j in s.deferred,
          if j in s.scheduled then Some(s.scheduled[j]) else None, j in s.finished, j in s.failed, j in s.canceled, j in s.executing)
  }

  function Stored(p: Place, job: Job, st: JobStatus): Place {
    p.(job := Some(job.(status := st)))
  }

  function Waiting(p: Place, job: Job, interval: nat): Place {
    if interval == 0 then Stored(p, job, Queued).(queued := p.queued + 1)
    else Stored(p, job, Scheduled).(scheduled := Some(interval))
  }

  function GivenUp(p: Place, job: Job, st: JobStatus, recorded: bool): Place {
    Stored(p, job, st).(failed := p.failed || recorded)
  }

  function FailureOf(p: Place, job: Job, stopped: bool, recorded: bool): Place
    requires SoundIntervals(job)
  {
    if stopped then GivenUp(p, job, Stopped, recorded)
    else if job.retriesLeft > 0 then Waiting(p, Retried(job), I.RetryInterval(job.retriesLeft, job.retryIntervals))
    else GivenUp(p, job, Failed, recorded)
  }

  /** Out of the registry its status names. */
  function LeftRegistry(p: Place, st: JobStatus): Place {
    p.(finished := p.finished && st != Finished,
       deferred := p.deferred && st != Deferred,
       started := p.started && st != Started,
       scheduled := if st == Scheduled then None else p.scheduled,
       failed := p.failed && st != Failed && st != Stopped,
       canceled := p.canceled && st != Canceled)
  }

  function SuccessOf(p: Place, job: Job, kept: bool): Place {
    var done := if kept then Stored(p, job, Finished).(finished := true) else p;
    if job.repeatsLeft > 0 then Waiting(done, Repeated(job), RepeatAfter(job))
    else if kept then done
    else LeftRegistry(p, job.status).(job := None)
  }

  function Over(p: Place): Place {
    p.(started := false, executing := false)
  }

  /** The enabling condition as the job sees it. */
  predicate Ready(p: Place, e: Event) {
    if e.EnqueueNew? || e.ParkNew? || e.ScheduleNew? then p.job.None? && Fresh(e.job)
    else
      && p.job.Some?
      && match e
         case Wake(_, _) => p.deferred
         case Drain(_, _) => p.scheduled.Some?
         case StartJob => p.queued > 0
         case Succeed(_, _) => p.executing
         case FailJob(_, _, _) => p.executing && SoundIntervals(p.job.value)
         case ReturnRetry(_, max, _) => p.executing && max >= 1
         case Abandon(_) => p.started && SoundIntervals(p.job.value)
         case CleanStuck(_) => p.queued > 0 && SoundIntervals(p.job.value)
         case Requeue(_, _) => p.failed
         case _ => p.job.value.status != Canceled
  }

  /** The same transactions with only the one job in sight. */
  function Step(p: Place, e: Event): Place
    requires Ready(p, e)
  {
    match e
    case EnqueueNew(_, job, _) => Waiting(p, job, 0)
    case ParkNew(_, job) => Stored(p, job, Deferred).(deferred := true)
    case ScheduleNew(_, job, delay) => Stored(p, job, Scheduled).(scheduled := Some(delay))
    case Wake(_, _) => Waiting(p, p.job.value, 0).(deferred := false)
    case Drain(_, _) => Waiting(p, p.job.value, 0).(scheduled := None)
    case StartJob => Stored(p, p.job.value, Started).(queued := p.queued - 1, started := true, executing := true)
    case Succeed(_, kept) => Over(SuccessOf(p, p.job.value, kept))
    case FailJob(_, stopped, recorded) => Over(FailureOf(p, p.job.value, stopped, recorded))
    case ReturnRetry(_, max, intervals) =>
      var job := p.job.value;
      Over(if RetriesExceeded(job, max) then GivenUp(p, job, Failed, true)
           else Waiting(p, job.(retries := job.retries + 1), I.ReturnedInterval(job.retries, intervals)))
    case Abandon(_) => Over(FailureOf(p, p.job.value, false, true))
    case CleanStuck(recorded) => FailureOf(p.(queued := p.queued - 1), p.job.value, false, recorded)
    case Requeue(_, _) => Waiting(p, p.job.value, 0).(failed := false)
    case Cancel(_) =>
      var st := p.job.value.status;
      Stored(LeftRegistry(p, st), p.job.value, Canceled).(
        queued := if p.queued > 0 then p.queued - 1 else 0,
        canceled := true)
  }

  // ---------- Jobs do not disturb each other ----------

  lemma PushCount(xs: seq<JobId>, j: JobId, front: bool, k: JobId)
    ensures multiset(Push(xs, j, front))[k] == multiset(xs)[k] + (if k == j then 1 else 0)
  {
  }

  lemma ViewAgain(s: State, j: JobId, job: Job, interval: nat, front: bool, k: JobId)
    ensures View(Again(s, j, job, interval, front), k) == if k == j then Waiting(View(s, k), job, interval) else View(s, k)
  {
    if interval == 0 { PushCount(s.queue, j, front, k); }
  }

  lemma ViewFailure(s: State, j: JobId, job: Job, stopped: bool, recorded: bool, k: JobId)
    requires SoundIntervals(job)
    ensures View(AfterFailure(s, j, job, stopped, recorded), k)
         == if k == j then FailureOf(View(s, k), job, stopped, recorded) else View(s, k)
  {
    if !stopped && job.retriesLeft > 0 {
      ViewAgain(s, j, Retried(job), I.RetryInterval(job.retriesLeft, job.retryIntervals), job.retryAtFront, k);
    }
  }

  lemma ViewSuccess(s: State, j: JobId, job: Job, kept: bool, k: JobId)
    ensures View(AfterSuccess(s, j, job, kept), k) == if k == j then SuccessOf(View(s, k), job, kept) else View(s, k)
  {
    if job.repeatsLeft > 0 {
      var s1 := if kept then Put(s, j, job, Finished).(finished := s.finished + {j}) else s;
      ViewAgain(s1, j, Repeated(job), RepeatAfter(job), false, k);
    } else if !kept {
      ViewDeleted(s, j, job.status, k);
    }
  }

  lemma ViewDeleted(s: State, j: JobId, st: JobStatus, k: JobId)
    ensures View(Deleted(s, j, st), k) == if k == j then LeftRegistry(View(s, k), st).(job := None) else View(s, k)
  {
  }

  lemma ViewEndExecution(s: State, j: JobId, k: JobId)
    ensures View(EndExecution(s, j), k) == if k == j then Over(View(s, k)) else View(s, k)
  {
  }

  lemma ViewPopped(s: State, k: JobId)
    requires s.queue != []
    ensures View(s.(queue := s.queue[1..]), k)
         == if k == s.queue[0] then View(s, k).(queued := View(s, k).queued - 1) else View(s, k)
  {
    assert s.queue == [s.queue[0]] + s.queue[1..];
  }

  lemma CountRemoved(xs: seq<JobId>, j: JobId, k: JobId)
    ensures multiset(RemoveFirst(xs, j))[k]
         == if k == j && multiset(xs)[k] > 0 then multiset(xs)[k] - 1 else multiset(xs)[k]
  {
    RemoveFirstCount(xs, j);
    var m := multiset(xs);
    assert multiset(RemoveFirst(xs, j)) == m - multiset{j};
    assert multiset{j}[k] == if k == j then 1 else 0;
  }

  /** From s to t the job has left the registry its status names. */
  ghost predicate LeavesRegistry(s: State, t: State, j: JobId, st: JobStatus) {
    && t.jobs == s.jobs && t.queue == s.queue && t.executing == s.executing
    && t.started == (if st == Started then s.started - {j} else s.started)
    && t.deferred == (if st == Deferred then s.deferred - {j} else s.deferred)
    && t.scheduled == (if st == Scheduled then s.scheduled - {j} else s.scheduled)
    && t.finished == (if st == Finished then s.finished - {j} else s.finished)
    && t.failed == (if st == Failed || st == Stopped then s.failed - {j} else s.failed)
    && t.canceled == (if st == Canceled then s.canceled - {j} else s.canceled)
  }

  lemma UnregisteredLeaves(s: State, j: JobId, st: JobStatus)
    ensures LeavesRegistry(s.(queue := RemoveFirst(s.queue, j)), Unregistered(s, j, st), j, st)
  {
  }

  lemma ViewLeft(s: State, t: State, j: JobId, st: JobStatus, k: JobId)
    requires LeavesRegistry(s, t, j, st)
    ensures View(t, k) == if k == j then LeftRegistry(View(s, k), st) else View(s, k)
  {
  }

  lemma ViewRemoved(s: State, j: JobId, k: JobId)
    ensures var p := View(s, k);
      View(s.(queue := RemoveFirst(s.queue, j)), k)
      == if k == j then p.(queued := if p.queued > 0 then p.queued - 1 else 0) else p
  {
    CountRemoved(s.queue, j, k);
  }

  lemma ViewUnregistered(s: State, j: JobId, st: JobStatus, k: JobId)
    ensures var p := View(s, k);
      View(Unregistered(s, j, st), k)
      == if k == j then LeftRegistry(p.(queued := if p.queued > 0 then p.queued - 1 else 0), st) else p
  {
    ViewRemoved(s, j, k);
    UnregisteredLeaves(s, j, st);
    ViewLeft(s.(queue := RemoveFirst(s.queue, j)), Unregistered(s, j, st), j, st, k);
  }

  lemma SubjectIsReady(s: State, e: Event)
    requires Enabled(s, e)
    ensures Ready(View(s, Subject(s, e)), e)
  {
  }

  lemma QueuedPlacesAreIndependent(s: State, e: Event, k: JobId)
    requires Enabled(s, e) && (e.EnqueueNew? || e.Wake? || e.Drain? || e.Requeue?)
    requires Ready(View(s, e.j), e)
    ensures View(Apply(s, e), k) == if k == e.j then Step(View(s, k), e) else View(s, k)
  {
    ViewAgain(s, e.j, if e.EnqueueNew? then e.job else s.jobs[e.j], 0, e.front, k);
  }

  lemma CanceledPlacesAreIndependent(s: State, e: Event, k: JobId)
    requires Enabled(s, e) && e.Cancel?
    requires Ready(View(s, e.j), e)
    ensures View(Apply(s, e), k) == if k == e.j then Step(View(s, k), e) else View(s, k)
  {
    var st := s.jobs[e.j].status;
    ViewUnregistered(s, e.j, st, k);
    ViewCanceled(Unregistered(s, e.j, st), e.j, s.jobs[e.j], k);
  }

  lemma ViewCanceled(s: State, j: JobId, job: Job, k: JobId)
    ensures View(Put(s, j, job, Canceled).(canceled := s.canceled + {j}), k)
         == if k == j then Stored(View(s, k), job, Canceled).(canceled := true) else View(s, k)
  {
  }

  lemma NewPlacesAreIndependent(s: State, e: Event, k: JobId)
    requires Enabled(s, e) && (e.ParkNew? || e.ScheduleNew?)
    requires Ready(View(s, e.j), e)
    ensures View(Apply(s, e), k) == if k == e.j then Step(View(s, k), e) else View(s, k)
  {
  }

  lemma StartedPlacesAreIndependent(s: State, k: JobId)
    requires Enabled(s, StartJob) && Ready(View(s, s.queue[0]), StartJob)
    ensures View(Apply(s, StartJob), k) == if k == s.queue[0] then Step(View(s, k), StartJob) else View(s, k)
  {
    ViewPopped(s, k);
  }

  lemma StuckPlacesAreIndependent(s: State, e: Event, k: JobId)
    requires Enabled(s, e) && e.CleanStuck?
    requires Ready(View(s, s.queue[0]), e)
    ensures View(Apply(s, e), k) == if k == s.queue[0] then Step(View(s, k), e) else View(s, k)
  {
    ViewPopped(s, k);
    ViewFailure(s.(queue := s.queue[1..]), s.queue[0], s.jobs[s.queue[0]], false, e.recorded, k);
  }

  lemma EndedPlacesAreIndependent(s: State, e: Event, k: JobId)
    requires Enabled(s, e) && (e.Succeed? || e.FailJob? || e.ReturnRetry? || e.Abandon?)
    ensures View(Apply(s, e), k) == if k == e.j then Step(View(s, k), e) else View(s, k)
  {
    var j, job := e.j, s.jobs[e.j];
    match e
    case Succeed(_, kept) =>
      ViewSuccess(s, j, job, kept, k);
      ViewEndExecution(AfterSuccess(s, j, job, kept), j, k);
    case FailJob(_, stopped, recorded) =>
      ViewFailure(s, j, job, stopped, recorded, k);
      ViewEndExecution(AfterFailure(s, j, job, stopped, recorded), j, k);
    case Abandon(_) =>
      ViewFailure(s, j, job, false, true, k);
      ViewEndExecution(AfterFailure(s, j, job, false, true), j, k);
    case ReturnRetry(_, max, intervals) =>
      if !RetriesExceeded(job, max) {
        ViewAgain(s, j, job.(retries := job.retries + 1), I.ReturnedInterval(job.retries, intervals), false, k);
      }
      ViewEndExecution(AfterReturnedRetry(s, j, job, max, intervals), j, k);
  }

  /** A job's place changes exactly by its own transactions, as `Step` says; whatever
      happens to another job leaves it alone. */
  lemma PlacesAreIndependent(s: State, e: Event, k: JobId)
    requires Enabled(s, e)
    ensures Ready(View(s, Subject(s, e)), e)
    ensures View(Apply(s, e), k) == if k == Subject(s, e) then Step(View(s, k), e) else View(s, k)
  {
    SubjectIsReady(s, e);
    if e.EnqueueNew? || e.Wake? || e.Drain? || e.Requeue? {
      QueuedPlacesAreIndependent(s, e, k);
    } else if e.Cancel? {
      CanceledPlacesAreIndependent(s, e, k);
    } else if e.Succeed? || e.FailJob? || e.ReturnRetry? || e.Abandon? {
      EndedPlacesAreIndependent(s, e, k);
    } else if e.StartJob? {
      StartedPlacesAreIndependent(s, k);
    } else if e.CleanStuck? {
      StuckPlacesAreIndependent(s, e, k);
    } else {
      NewPlacesAreIndependent(s, e, k);
    }
  }

  // ---------- The order of the queue ----------

  /** Which end of the queue a job goes to. */
  function FrontOf(s: State, e: Event): bool
    requires Enabled(s, e)
  {
    match e
    case EnqueueNew(_, _, front) => front
    case Wake(_, front) => front
    case Drain(_, front) => front
    case Requeue(_, front) => front
    case FailJob(j, _, _) => s.jobs[j].retryAtFront
    case Abandon(j) => s.jobs[j].retryAtFront
    case CleanStuck(_) => s.jobs[s.queue[0]].retryAtFront
    case _ => false
  }

  /** The other jobs keep their order: the head is popped by a start or a clean-up, the
      first occurrence of a canceled job goes, and a job that becomes QUEUED is added at
      one end, the front exactly if asked for or if its retries are configured so. */
  lemma QueueOrderKept(s: State, e: Event)
    requires Enabled(s, e)
    ensures var t, j := Apply(s, e), Subject(s, e);
      var rest := if e.StartJob? || e.CleanStuck? then s.queue[1..]
                  else if e.Cancel? then RemoveFirst(s.queue, j) else s.queue;
      t.queue == if j in t.jobs && t.jobs[j].status == Queued then Push(rest, j, FrontOf(s, e)) else rest
  {
    if e.FailJob? || e.Abandon? {
      QueueAfterFailure(s, e.j, s.jobs[e.j], e.FailJob? && e.stopped, e.Abandon? || e.recorded);
    } else if e.CleanStuck? {
      QueueAfterFailure(s.(queue := s.queue[1..]), s.queue[0], s.jobs[s.queue[0]], false, e.recorded);
    } else if e.Cancel? {
      assert Unregistered(s, e.j, s.jobs[e.j].status).queue == RemoveFirst(s.queue, e.j);
    }
  }

  lemma QueueAfterFailure(s: State, j: JobId, job: Job, stopped: bool, recorded: bool)
    requires SoundIntervals(job)
    ensures var t := AfterFailure(s, j, job, stopped, recorded);
      && j in t.jobs
      && t.queue == if t.jobs[j].status == Queued then Push(s.queue, j, job.retryAtFront) else s.queue
  {
  }

  // ---------- Status and location agree ----------

  predicate Is(p: Place, st: JobStatus) {
    p.job.Some? && p.job.value.status == st
  }

  /** A job is exactly where its status says, and in no other place. Only the
      finished registry may also keep an earlier success of a job that was repeated. */
  predicate Agrees(p: Place, repeated: bool) {
    && p.queued == (if Is(p, Queued) then 1 else 0)
    && (p.started <==> Is(p, Started))
    && (p.executing <==> Is(p, Started))
    && (p.deferred <==> Is(p, Deferred))
    && (p.scheduled.Some? <==> Is(p, Scheduled))
    && (p.failed <==> Is(p, Failed) || Is(p, Stopped))
    && (p.canceled <==> Is(p, Canceled))
    && (p.finished <==> Is(p, Finished) || repeated)
    && !Is(p, Created)
    && (p.job.Some? ==> SoundIntervals(p.job.value))
  }

  /** Whether the finished registry keeps an earlier success of the job. */
  predicate StillListed(p: Place, repeated: bool, e: Event)
    requires Ready(p, e)
  {
    if e.Succeed? then repeated || (e.kept && p.job.value.repeatsLeft > 0)
    else if e.Cancel? then repeated && !Is(p, Finished)
    else repeated
  }

  /** What an event must avoid: canceling a job while it executes, and giving a job
      up with the default exception handler disabled. */
  predicate Careful(p: Place, e: Event)
    requires Ready(p, e)
  {
    match e
    case Cancel(_) => !Is(p, Started)
    case FailJob(_, stopped, recorded) => recorded || (!stopped && p.job.value.retriesLeft > 0)
    case CleanStuck(recorded) => recorded || p.job.value.retriesLeft > 0
    case _ => true
  }

  lemma SuccessKeepsExactly(p: Place, e: Event, repeated: bool)
    requires Agrees(p, repeated) && Ready(p, e) && (e.Succeed? || e.ReturnRetry?)
    ensures Agrees(Step(p, e), StillListed(p, repeated, e)) <==> Careful(p, e)
  {
  }

  lemma FailureKeepsExactly(p: Place, e: Event, repeated: bool)
    requires Agrees(p, repeated) && Ready(p, e) && (e.FailJob? || e.Abandon? || e.CleanStuck?)
    ensures Agrees(Step(p, e), StillListed(p, repeated, e)) <==> Careful(p, e)
  {
  }

  lemma MoveKeepsExactly(p: Place, e: Event, repeated: bool)
    requires Agrees(p, repeated) && Ready(p, e)
    requires !(e.Succeed? || e.FailJob? || e.ReturnRetry? || e.Abandon? || e.CleanStuck?)
    ensures Agrees(Step(p, e), StillListed(p, repeated, e)) <==> Careful(p, e)
  {
  }

  /** An event keeps status and place in agreement exactly when it is careful. */
  lemma AgreementKeptExactly(p: Place, e: Event, repeated: bool)
    requires Agrees(p, repeated) && Ready(p, e)
    ensures Agrees(Step(p, e), StillListed(p, repeated, e)) <==> Careful(p, e)
  {
    if e.Succeed? || e.ReturnRetry? {
      SuccessKeepsExactly(p, e, repeated);
    } else if e.FailJob? || e.Abandon? || e.CleanStuck? {
      FailureKeepsExactly(p, e, repeated);
    } else {
      MoveKeepsExactly(p, e, repeated);
    }
  }

  /** A canceled execution that then succeeds ends in two registries. */
  lemma CanceledWhileExecuting(p: Place, j: JobId, repeated: bool)
    requires Agrees(p, repeated) && Is(p, Started)
    ensures Ready(p, Cancel(j)) && Ready(Step(p, Cancel(j)), Succeed(j, true))
    ensures var q := Step(Step(p, Cancel(j)), Succeed(j, true)); q.canceled && q.finished
  {
  }
}
