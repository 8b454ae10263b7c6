/** Jobs of one queue under crashes. Workers dequeue with LMOVE; every client can
    die between any two commands or transactions. The steps follow the order in
    which rq/queue.py, rq/executions.py, rq/worker/base.py, rq/job.py,
    rq/registry.py, rq/scheduler.py and rq/intermediate_queue.py send them. */
module CrashModel {
  import opened Common

  type ClientId = nat

  /** An entry of the started registry: one execution of one job. */
  datatype Entry = Entry(job: JobId, exec: nat)

  /** retries_left, repeats_left and number_of_retries of a hash; `None` reads as 0. */
  datatype Counters = Counters(retries: nat, repeats: nat, returned: nat)

  /** Why a job is put back to wait: an execution failed or was abandoned, it succeeded
      and is repeated, or it returned a Retry. */
  datatype Reason = Exception | Repeat | Returned(max: nat, delay: bool)

  /** `left` holds the counters of each hash. */
  datatype Redis = Redis(
    jobs: map<JobId, JobStatus>,
    left: map<JobId, Counters>,
    queue: seq<JobId>,
    intermediate: seq<JobId>,
    started: set<Entry>,
    deferred: set<JobId>,
    scheduled: set<JobId>)

  /** What a cleanup does with an abandoned job. */
  datatype Verdict = Fails | Requeues(front: bool) | Reschedules

  datatype PipeItem = PipeItem(job: JobId, verdict: Verdict)

  datatype Client =
    | Idle
      // a worker and the job it took; `early` means its id is still in the intermediate queue
    | Dequeued(j: JobId)
    | Prepared(j: JobId, e: nat)
    | Running(j: JobId, e: nat)
    | Marked(j: JobId, e: nat, early: bool)
    | Added(j: JobId, e: nat, early: bool)
      // schedule_job of a new job: ZADD sent, the hash not saved yet
    | Saving(j: JobId)
      // the scheduler, between reading the due ids and its transaction
    | Draining(ids: seq<JobId>, live: set<JobId>)
      // StartedJobRegistry.cleanup
    | Sweeping(entries: set<Entry>, todo: seq<JobId>, pipe: seq<PipeItem>)
    | SweepFetched(entries: set<Entry>, todo: seq<JobId>, pipe: seq<PipeItem>)
    | SweepMarked(entries: set<Entry>, todo: seq<JobId>, pipe: seq<PipeItem>)
      // IntermediateQueue.cleanup on one stuck job
    | Stuck(j: JobId)
    | StuckMarked(j: JobId)
    | StuckAdded(j: JobId)
    | StuckDone(j: JobId)
      // cancel: the status that chose the registry to leave, and the entries found then
    | Canceling(j: JobId, seen: JobStatus, entries: set<Entry>)

  /** What a worker keeps while its work horse executes: its own copy of the job. */
  datatype Parent = Parent(j: JobId, e: nat, copy: Counters)

  /** `copies` holds the counters of the job objects a client has fetched, which are
      counted down before they are saved, and `parents` those of workers with a work
      horse; `atOnce` and `repeatAtOnce` say for which of a job's retries and repeats,
      by the number left, the configured interval is 0. */
  datatype System = System(
    r: Redis,
    clients: map<ClientId, Client>,
    claimed: set<JobId>,
    execs: set<nat>,
    copies: map<ClientId, map<JobId, Counters>>,
    parents: map<ClientId, Parent>,
    atOnce: (JobId, nat) -> bool,
    repeatAtOnce: (JobId, nat) -> bool)

  datatype Action =
    | EnqueueNew(j: JobId, front: bool, counters: Counters)
    | ParkNew(j: JobId, counters: Counters)
    | Wake(j: JobId, front: bool)
    | ScheduleAdd(j: JobId)
    | ScheduleSave(counters: Counters)
    | Dequeue
    | FetchMissing
    | PrepareExecution(e: nat)
    | PrepareJob
    | Succeed
    | RepeatNow
    | RepeatAdd
    | Fail(st: JobStatus)
    | RetryNow(front: bool, why: Reason)
    | RetryMark(why: Reason)
    | RetryAdd
    | CommitSchedule
    | DrainRead(ids: seq<JobId>)
    | DrainExec(fronts: set<JobId>)
    | SweepRead(entries: set<Entry>, todo: seq<JobId>)
    | SweepFetch
    | SweepDecide(verdict: Verdict)
    | SweepMark
    | SweepAdd
    | SweepExec
    | StuckPick(j: JobId)
    | StuckResolve(verdict: Verdict)
    | StuckMark
    | StuckAdd
    | StuckCommit
    | StuckRemove
    | CancelRead(j: JobId, found: bool)
    | CancelExec
    | Requeue(j: JobId, front: bool)
    | HorseDies
    | Crash

  // ---------- Who is responsible for what ----------

  /** The client answers for one occurrence of j in the intermediate queue. */
  predicate Attends(pc: Client, j: JobId) {
    match pc
    case Dequeued(k) => k == j
    case Prepared(k, _) => k == j
    case Marked(k, _, early) => early && k == j
    case Added(k, _, early) => early && k == j
    case Stuck(k) => k == j
    case StuckMarked(k) => k == j
    case StuckAdded(k) => k == j
    case StuckDone(k) => k == j
    case _ => false
  }

  /** Started entries this client alone may remove. */
  function Owns(pc: Client): set<Entry> {
    match pc
    case Prepared(j, e) => {Entry(j, e)}
    case Running(j, e) => {Entry(j, e)}
    case Marked(j, e, _) => {Entry(j, e)}
    case Added(j, e, _) => {Entry(j, e)}
    case Sweeping(entries, _, _) => entries
    case SweepFetched(entries, _, _) => entries
    case SweepMarked(entries, _, _) => entries
    case _ => {}
  }

  /** Jobs whose ZADD to the scheduled registry is out, but not the transaction
      that belongs to it. */
  function Pending(pc: Client): set<JobId> {
    match pc
    case Added(j, _, _) => {j}
    case Saving(j) => {j}
    case Sweeping(_, _, pipe) => Rescheduled(pipe)
    case SweepFetched(_, _, pipe) => Rescheduled(pipe)
    case SweepMarked(_, _, pipe) => Rescheduled(pipe)
    case StuckAdded(j) => {j}
    case _ => {}
  }

  function Rescheduled(pipe: seq<PipeItem>): set<JobId> {
    set it | it in pipe && it.verdict == Reschedules :: it.job
  }

  function PipeJobs(pipe: seq<PipeItem>): set<JobId> {
    set it | it in pipe :: it.job
  }

  /** The jobs a cleanup has decided to put back. */
  function PutBack(pipe: seq<PipeItem>): set<JobId> {
    set it | it in pipe && !it.verdict.Fails? :: it.job
  }

  function AttendingSet(clients: map<ClientId, Client>, j: JobId): set<ClientId> {
    set i | i in clients && Attends(clients[i], j)
  }

  function RemovingSet(clients: map<ClientId, Client>, j: JobId): set<ClientId> {
    set i | i in clients && clients[i] == StuckDone(j)
  }

  function Attending(clients: map<ClientId, Client>, j: JobId): nat {
    |AttendingSet(clients, j)|
  }

  function Removing(clients: map<ClientId, Client>, j: JobId): nat {
    |RemovingSet(clients, j)|
  }

  /** No live client is between a ZADD and the transaction for any of these jobs. */
  ghost predicate NotPending(s: System, ids: set<JobId>) {
    forall i :: i in s.clients ==> Pending(s.clients[i]) !! ids
  }

  ghost predicate Unowned(s: System, entries: set<Entry>) {
    forall i :: i in s.clients ==> Owns(s.clients[i]) !! entries
  }

  /** The started entries of a job. */
  function EntriesOf(r: Redis, j: JobId): set<Entry> {
    set en | en in r.started && en.job == j
  }

  /** The counters in the hash, and in a client's copy of it. */
  function Left(r: Redis, j: JobId): Counters {
    if j in r.left then r.left[j] else Counters(0, 0, 0)
  }

  function Copies(s: System, i: ClientId): map<JobId, Counters> {
    if i in s.copies then s.copies[i] else map[]
  }

  function Copy(s: System, i: ClientId, j: JobId): Counters {
    if j in Copies(s, i) then Copies(s, i)[j] else Counters(0, 0, 0)
  }

  /** The counters allow it: what they become, and whether the interval is positive. */
  predicate Grants(c: Counters, why: Reason) {
    match why
    case Exception => c.retries > 0
    case Repeat => c.repeats > 0
    case Returned(max, _) => c.returned < max
  }

  function Used(c: Counters, why: Reason): Counters
    requires Grants(c, why)
  {
    match why
    case Exception => c.(retries := c.retries - 1)
    case Repeat => c.(repeats := c.repeats - 1)
    case Returned(_, _) => c.(returned := c.returned + 1)
  }

  predicate Delayed(s: System, j: JobId, c: Counters, why: Reason) {
    match why
    case Exception => !s.atOnce(j, c.retries)
    case Repeat => !s.repeatAtOnce(j, c.repeats)
    case Returned(_, delay) => delay
  }

  /** By the client's copy the job is to be put back at once, or later. */
  predicate AtOnce(s: System, i: ClientId, j: JobId, why: Reason) {
    Grants(Copy(s, i, j), why) && !Delayed(s, j, Copy(s, i, j), why)
  }

  predicate Later(s: System, i: ClientId, j: JobId, why: Reason) {
    Grants(Copy(s, i, j), why) && Delayed(s, j, Copy(s, i, j), why)
  }

  /** No retry is left by the client's copy. */
  predicate Spent(s: System, i: ClientId, j: JobId) {
    !Grants(Copy(s, i, j), Exception)
  }

  predicate Justified(s: System, i: ClientId, j: JobId, v: Verdict) {
    match v
    case Fails => Spent(s, i, j)
    case Requeues(_) => AtOnce(s, i, j, Exception)
    case Reschedules => Later(s, i, j, Exception)
  }

  // ---------- The steps ----------

  function Enqueued(r: Redis, j: JobId, front: bool): Redis {
    r.(jobs := r.jobs[j := Queued], queue := Push(r.queue, j, front))
  }

  function PushAll(xs: seq<JobId>, ids: seq<JobId>, live: set<JobId>, fronts: set<JobId>): seq<JobId>
    decreases |ids|
  {
    if ids == [] then xs
    else PushAll(if ids[0] in live then Push(xs, ids[0], ids[0] in fronts) else xs, ids[1..], live, fronts)
  }

  /** The scheduler's transaction: saves and pushes the jobs it found, drops all ids. */
  function Drained(r: Redis, ids: seq<JobId>, live: set<JobId>, fronts: set<JobId>): Redis {
    var moved := ToSet(ids) * live;
    r.(jobs := map j | j in r.jobs.Keys + moved :: if j in moved then Queued else r.jobs[j],
       queue := PushAll(r.queue, ids, live, fronts),
       scheduled := r.scheduled - ToSet(ids))
  }

  /** The commands one verdict puts into the pipeline. */
  function RunItem(r: Redis, it: PipeItem): Redis {
    match it.verdict
    case Fails => r.(jobs := r.jobs[it.job := Failed])
    case Requeues(front) => Enqueued(r, it.job, front)
    case Reschedules => r.(jobs := r.jobs[it.job := Scheduled])
  }

  /** The commands a cleanup collected, in order. */
  function RunPipe(r: Redis, pipe: seq<PipeItem>): Redis
    decreases |pipe|
  {
    if pipe == [] then r else RunPipe(RunItem(r, pipe[0]), pipe[1..])
  }

  /** Which steps the code of a client can take next. A running job can also ask for a
      retry, or be refused one, by what it returns, whatever its retries_left. A job is
      canceled by the status found at some moment, or by none if it changes between the
      single reads. A worker whose work horse dies takes over unless the job's status is
      FINISHED or FAILED. */
  ghost predicate Possible(s: System, i: ClientId, a: Action) {
    i in s.clients &&
    var r, pc := s.r, s.clients[i];
    match a
    case EnqueueNew(j, _, _) => pc.Idle? && j !in s.claimed
    case ParkNew(j, _) => pc.Idle? && j !in s.claimed
    case Wake(j, _) => pc.Idle? && j in r.jobs && j in r.deferred
    case ScheduleAdd(j) => pc.Idle? && j !in s.claimed
    case ScheduleSave(_) => pc.Saving?
    case Dequeue => pc.Idle? && r.queue != []
    case FetchMissing => pc.Dequeued? && pc.j !in r.jobs
    case PrepareExecution(e) => pc.Dequeued? && pc.j in r.jobs && e !in s.execs
    case PrepareJob => pc.Prepared?
    case Succeed => pc.Running?
    case RepeatNow => pc.Running? && AtOnce(s, i, pc.j, Repeat)
    case RepeatAdd => pc.Running? && Later(s, i, pc.j, Repeat)
    case Fail(st) =>
      && (st == Failed || st == Stopped)
      && (pc.Running? || (pc.Prepared? && (st == Failed ==> Spent(s, i, pc.j))))
    case RetryNow(_, why) => MayRetry(pc, why) && AtOnce(s, i, pc.j, why)
    case RetryMark(why) => MayRetry(pc, why) && Later(s, i, pc.j, why)
    case RetryAdd => pc.Marked?
    case CommitSchedule => pc.Added?
    case DrainRead(ids) => pc.Idle? && NoDup(ids) && ToSet(ids) <= r.scheduled
    case DrainExec(_) => pc.Draining?
    case SweepRead(entries, todo) =>
      && pc.Idle? && entries <= r.started
      && ToSet(todo) == set en | en in entries && en.job in r.jobs :: en.job
    case SweepFetch => pc.Sweeping? && pc.todo != []
    case SweepDecide(v) => pc.SweepFetched? && pc.todo != [] && v != Reschedules && Justified(s, i, pc.todo[0], v)
    case SweepMark => pc.SweepFetched? && pc.todo != [] && Later(s, i, pc.todo[0], Exception)
    case SweepAdd => pc.SweepMarked? && pc.todo != []
    case SweepExec => pc.Sweeping? && pc.todo == []
    case StuckPick(j) =>
      pc.Idle? && j in r.jobs && j in r.intermediate && (forall e :: Entry(j, e) !in r.started)
    case StuckResolve(v) => pc.Stuck? && v != Reschedules && Justified(s, i, pc.j, v)
    case StuckMark => pc.Stuck? && Later(s, i, pc.j, Exception)
    case StuckAdd => pc.StuckMarked?
    case StuckCommit => pc.StuckAdded?
    case StuckRemove => pc.StuckDone?
    case CancelRead(j, _) => pc.Idle? && j in r.jobs
    case CancelExec => pc.Canceling?
    case Requeue(j, _) => pc.Idle? && j in r.jobs && (r.jobs[j] == Failed || r.jobs[j] == Stopped)
    case HorseDies =>
      && i in s.parents && (pc.Idle? || pc.Marked? || pc.Added?)
      && var j := s.parents[i].j;
         j in r.jobs && r.jobs[j] != Finished && r.jobs[j] != Failed
    case Crash => true
  }

  /** A running job may be retried for either reason, one that could not be started only
      because of that. */
  predicate MayRetry(pc: Client, why: Reason) {
    (pc.Running? && !why.Repeat?) || (pc.Prepared? && why.Exception?)
  }

  /** What is assumed of the environment. */
  ghost predicate Assumed(s: System, i: ClientId, a: Action) {
    match a
      // the scheduler does not overtake a scheduling transaction under way
    case DrainRead(ids) => NotPending(s, ToSet(ids))
    case DrainExec(_) => i in s.clients && s.clients[i].Draining? ==> NotPending(s, ToSet(s.clients[i].ids))
      // entries of live workers do not expire, and one cleanup handles an entry at a time
    case SweepRead(entries, _) => Unowned(s, entries)
      // a stuck id is an occurrence nobody alive answers for
    case StuckPick(j) => multiset(s.r.intermediate)[j] > Attending(s.clients, j)
      // no job is canceled as STARTED under the worker or cleanup that answers for its
      // execution, and none as SCHEDULED between a ZADD and its transaction
    case CancelExec => i in s.clients && s.clients[i].Canceling? ==>
      && (s.clients[i].seen == Started ==> Unowned(s, s.clients[i].entries))
      && (s.clients[i].seen == Scheduled ==> NotPending(s, {s.clients[i].j}))
      // a work horse whose transaction has gone through does not die afterwards
    case HorseDies => i in s.clients ==> !s.clients[i].Idle?
    case _ => true
  }

  ghost predicate Enabled(s: System, i: ClientId, a: Action) {
    Possible(s, i, a) && Assumed(s, i, a)
  }

  /** The Redis data after the step, but for the retry counters. */
  ghost function NextRedis(s: System, i: ClientId, a: Action): Redis
    requires Possible(s, i, a)
  {
    var r, pc := s.r, s.clients[i];
    match a
    case EnqueueNew(j, front, _) => Enqueued(r, j, front)
    case ParkNew(j, _) => r.(jobs := r.jobs[j := Deferred], deferred := r.deferred + {j})
    case Wake(j, front) => Enqueued(r, j, front).(deferred := r.deferred - {j})
    case ScheduleAdd(j) => r.(scheduled := r.scheduled + {j})
    case ScheduleSave(_) => r.(jobs := r.jobs[pc.j := Scheduled])
    case Dequeue => r.(queue := r.queue[1..], intermediate := r.intermediate + [r.queue[0]])
    case PrepareExecution(e) => r.(started := r.started + {Entry(pc.j, e)})
    case PrepareJob => r.(jobs := r.jobs[pc.j := Started], intermediate := RemoveFirst(r.intermediate, pc.j))
    case Succeed => r.(jobs := r.jobs[pc.j := Finished], started := r.started - Owns(pc))
    case RepeatNow => Enqueued(r, pc.j, false).(started := r.started - Owns(pc))
    case RepeatAdd => r.(scheduled := r.scheduled + {pc.j})
    case Fail(st) => r.(jobs := r.jobs[pc.j := st], started := r.started - Owns(pc))
    case RetryNow(front, _) => Enqueued(r, pc.j, front).(started := r.started - Owns(pc))
    case RetryMark(_) => r.(jobs := r.jobs[pc.j := Scheduled])
    case RetryAdd => r.(scheduled := r.scheduled + {pc.j})
    case CommitSchedule => r.(jobs := r.jobs[pc.j := Scheduled], started := r.started - Owns(pc))
    case DrainExec(fronts) => Drained(r, pc.ids, pc.live, fronts)
    case SweepMark => r.(jobs := r.jobs[pc.todo[0] := Scheduled])
    case SweepAdd => r.(scheduled := r.scheduled + {pc.todo[0]})
    case SweepExec => RunPipe(r, pc.pipe).(started := r.started - pc.entries)
    case StuckResolve(v) => RunItem(r, PipeItem(pc.j, v))
    case StuckMark => r.(jobs := r.jobs[pc.j := Scheduled])
    case StuckAdd => r.(scheduled := r.scheduled + {pc.j})
    case StuckCommit => r.(jobs := r.jobs[pc.j := Scheduled])
    case StuckRemove => r.(intermediate := RemoveFirst(r.intermediate, pc.j))
    case CancelExec =>
      r.(jobs := r.jobs[pc.j := Canceled],
         queue := RemoveFirst(r.queue, pc.j),
         deferred := if pc.seen == Deferred then r.deferred - {pc.j} else r.deferred,
         started := if pc.seen == Started then r.started - pc.entries else r.started,
         scheduled := if pc.seen == Scheduled then r.scheduled - {pc.j} else r.scheduled)
    case Requeue(j, front) => Enqueued(r, j, front)
    case _ => r
  }

  /** The counters the step saves: those of the client's copies, counted down when the
      job is put back. A change of status alone saves none. */
  ghost function SavedLeft(s: System, i: ClientId, a: Action): map<JobId, Counters>
    requires Possible(s, i, a)
  {
    var pc := s.clients[i];
    match a
    case EnqueueNew(j, _, c) => map[j := c]
    case ParkNew(j, c) => map[j := c]
    case ScheduleSave(c) => map[pc.j := c]
    case Succeed => map[pc.j := Copy(s, i, pc.j)]
    case RepeatNow => map[pc.j := Used(Copy(s, i, pc.j), Repeat)]
    case RetryNow(_, why) => map[pc.j := Used(Copy(s, i, pc.j), why)]
    case CommitSchedule => map[pc.j := Copy(s, i, pc.j)]
    case DrainExec(_) => map j | j in ToSet(pc.ids) * pc.live :: Copy(s, i, j)
    case SweepExec => map j | j in PutBack(pc.pipe) :: Copy(s, i, j)
    case StuckResolve(v) => if v.Requeues? then map[pc.j := Used(Copy(s, i, pc.j), Exception)] else map[]
    case StuckCommit => map[pc.j := Copy(s, i, pc.j)]
    case _ => map[]
  }

  /** The copies the client holds after the step. */
  ghost function NextCopies(s: System, i: ClientId, a: Action): map<JobId, Counters>
    requires Possible(s, i, a)
  {
    var pc, copies := s.clients[i], Copies(s, i);
    match a
    case PrepareExecution(_) => map[pc.j := Left(s.r, pc.j)]
    case RepeatAdd => copies[pc.j := Used(Copy(s, i, pc.j), Repeat)]
    case RetryMark(why) => copies[pc.j := Used(Copy(s, i, pc.j), why)]
    case HorseDies => map[s.parents[i].j := s.parents[i].copy]
    case DrainRead(ids) => map j | j in ToSet(ids) * s.r.jobs.Keys :: Left(s.r, j)
    case SweepRead(_, _) => map[]
    case SweepFetch => copies[pc.todo[0] := Left(s.r, pc.todo[0])]
    case SweepDecide(v) => if v.Requeues? then copies[pc.todo[0] := Used(Copy(s, i, pc.todo[0]), Exception)] else copies
    case SweepMark => copies[pc.todo[0] := Used(Copy(s, i, pc.todo[0]), Exception)]
    case StuckPick(j) => map[j := Left(s.r, j)]
    case StuckMark => copies[pc.j := Used(Copy(s, i, pc.j), Exception)]
    case _ => copies
  }

  /** The worker's own copy is fetched with the work horse's, and is of no more use when
      the worker goes on to something else. */
  ghost function NextParents(s: System, i: ClientId, a: Action): map<ClientId, Parent>
    requires Possible(s, i, a)
  {
    if a.PrepareExecution? then s.parents[i := Parent(s.clients[i].j, a.e, Left(s.r, s.clients[i].j))]
    else if a.Dequeue? || a.HorseDies? || a.Crash? || Busy(NextClient(s, i, a)) then s.parents - {i}
    else s.parents
  }

  /** Doing something that is not the work on a job. */
  predicate Busy(pc: Client) {
    !pc.Idle? && !pc.Prepared? && !pc.Running? && !pc.Marked? && !pc.Added?
  }

  ghost function NextClient(s: System, i: ClientId, a: Action): Client
    requires Possible(s, i, a)
  {
    var r, pc := s.r, s.clients[i];
    match a
    case ScheduleAdd(j) => Saving(j)
    case Dequeue => Dequeued(r.queue[0])
    case PrepareExecution(e) => Prepared(pc.j, e)
    case PrepareJob => Running(pc.j, pc.e)
    case RepeatAdd => Added(pc.j, pc.e, false)
    case RetryMark(_) => Marked(pc.j, pc.e, pc.Prepared?)
    case RetryAdd => Added(pc.j, pc.e, pc.early)
    case DrainRead(ids) => Draining(ids, ToSet(ids) * r.jobs.Keys)
    case SweepRead(entries, todo) => Sweeping(entries, todo, [])
    case SweepFetch => SweepFetched(pc.entries, pc.todo, pc.pipe)
    case SweepDecide(v) => Sweeping(pc.entries, pc.todo[1..], pc.pipe + [PipeItem(pc.todo[0], v)])
    case SweepMark => SweepMarked(pc.entries, pc.todo, pc.pipe)
    case SweepAdd => Sweeping(pc.entries, pc.todo[1..], pc.pipe + [PipeItem(pc.todo[0], Reschedules)])
    case StuckPick(j) => Stuck(j)
    case StuckResolve(_) => StuckDone(pc.j)
    case StuckMark => StuckMarked(pc.j)
    case StuckAdd => StuckAdded(pc.j)
    case StuckCommit => StuckDone(pc.j)
    case CancelRead(j, found) =>
      Canceling(j, if found then r.jobs[j] else Created, if found && r.jobs[j] == Started then EntriesOf(r, j) else {})
    case HorseDies =>
      if pc.Marked? || pc.Added? then (if pc.early then Prepared(pc.j, pc.e) else Running(pc.j, pc.e))
      else Running(s.parents[i].j, s.parents[i].e)
    case _ => Idle
  }

  function NewIds(a: Action): set<JobId> {
    match a
    case EnqueueNew(j, _, _) => {j}
    case ParkNew(j, _) => {j}
    case ScheduleAdd(j) => {j}
    case _ => {}
  }

  ghost function Next(s: System, i: ClientId, a: Action): System
    requires Possible(s, i, a)
  {
    After(s, i, NextRedis(s, i, a), NextClient(s, i, a), SavedLeft(s, i, a), NextCopies(s, i, a), NewIds(a),
          if a.PrepareExecution? then {a.e} else {}).(parents := NextParents(s, i, a))
  }

  /** Client i has left this behind. */
  function After(s: System, i: ClientId, data: Redis, pc: Client, saved: map<JobId, Counters>, copies: map<JobId, Counters>,
                 ids: set<JobId>, execs: set<nat>): System
  {
    System(data.(left := s.r.left + saved), s.clients[i := pc], s.claimed + ids, s.execs + execs,
           s.copies[i := copies], s.parents, s.atOnce, s.repeatAtOnce)
  }

  // ---------- The invariant ----------

  ghost predicate InStarted(r: Redis, j: JobId) {
    exists e :: Entry(j, e) in r.started
  }

  /** Somewhere in Redis from where the job will be taken up again. An id in the
      intermediate queue that a cleanup is about to remove does not count. */
  ghost predicate Located(r: Redis, j: JobId, removing: nat) {
    || j in r.queue
    || multiset(r.intermediate)[j] > removing
    || InStarted(r, j)
    || j in r.deferred
    || j in r.scheduled
  }

  ghost predicate NothingLost(s: System) {
    forall j :: j in s.r.jobs && !Terminal(s.r.jobs[j]) ==> Located(s.r, j, Removing(s.clients, j))
  }

  ghost predicate Attended(s: System) {
    forall j :: multiset(s.r.intermediate)[j] >= Attending(s.clients, j)
  }

  ghost predicate Ownership(s: System) {
    && (forall i :: i in s.clients ==> Owns(s.clients[i]) <= s.r.started)
    && (forall en :: en in s.r.started ==> en.exec in s.execs && en.job in s.r.jobs)
    && (forall i, k :: i in s.clients && k in s.clients && i != k ==> Owns(s.clients[i]) !! Owns(s.clients[k]))
  }

  ghost predicate PendingScheduled(s: System) {
    forall i :: i in s.clients ==> Pending(s.clients[i]) <= s.r.scheduled
  }

  /** What a client's own variables say about the data. */
  ghost predicate LocalOk(r: Redis, claimed: set<JobId>, pc: Client) {
    match pc
    case Saving(j) => j in claimed && j !in r.jobs
    case Draining(_, live) => live <= r.jobs.Keys
    case Sweeping(entries, todo, pipe) => SweepOk(r, entries, todo, pipe)
    case SweepFetched(entries, todo, pipe) => SweepOk(r, entries, todo, pipe)
    case SweepMarked(entries, todo, pipe) => SweepOk(r, entries, todo, pipe) && todo != []
    case Stuck(j) => j in r.jobs
    case StuckMarked(j) => j in r.jobs
    case StuckAdded(j) => j in r.jobs
    case StuckDone(j) => j in r.jobs
    case Canceling(j, _, entries) => j in r.jobs && forall en :: en in entries ==> en.job == j
    case _ => true
  }

  ghost predicate SweepOk(r: Redis, entries: set<Entry>, todo: seq<JobId>, pipe: seq<PipeItem>) {
    && (forall en :: en in entries ==> en.job in todo || en.job in PipeJobs(pipe))
    && (forall j :: j in todo ==> InEntries(entries, j))
    && (forall it :: it in pipe ==> it.job in r.jobs)
  }

  ghost predicate InEntries(entries: set<Entry>, j: JobId) {
    exists e :: Entry(j, e) in entries
  }

  ghost predicate Locals(s: System) {
    && s.r.jobs.Keys <= s.claimed
    && (forall i :: i in s.clients ==> LocalOk(s.r, s.claimed, s.clients[i]))
    && (forall i, k :: i in s.clients && k in s.clients && i != k && s.clients[i].Saving? ==> s.clients[k] != s.clients[i])
  }

  /** Ids a scheduler found without a hash never get one. */
  ghost predicate DrainsOk(s: System) {
    && s.r.scheduled <= s.claimed
    && forall i, j :: Drains(s, i, j) ==> StaysMissing(s, j)
  }

  /** The client is about to drop an id it found no job for. */
  ghost predicate Drains(s: System, i: ClientId, j: JobId) {
    i in s.clients && s.clients[i].Draining? && j in s.clients[i].ids && j !in s.clients[i].live
  }

  /** No job of this id exists, and nobody is about to save one. */
  ghost predicate StaysMissing(s: System, j: JobId) {
    j in s.claimed && j !in s.r.jobs && forall k :: k in s.clients ==> s.clients[k] != Saving(j)
  }

  ghost predicate Support(s: System) {
    Attended(s) && Ownership(s) && PendingScheduled(s) && Locals(s) && DrainsOk(s)
  }

  ghost predicate Invariant(s: System) {
    NothingLost(s) && Support(s)
  }

  ghost predicate Initial(s: System) {
    s.r == Redis(map[], map[], [], [], {}, {}, {}) && s.claimed == {} && s.execs == {}
    && s.copies == map[] && s.parents == map[]
    && forall i :: i in s.clients ==> s.clients[i].Idle?
  }

  // ---------- Counting clients ----------

  lemma AttendingUpdate(clients: map<ClientId, Client>, i: ClientId, pc: Client, j: JobId)
    requires i in clients
    ensures Attending(clients[i := pc], j) + (if Attends(clients[i], j) then 1 else 0)
      == Attending(clients, j) + (if Attends(pc, j) then 1 else 0)
  {
    SameButOne(AttendingSet(clients, j), AttendingSet(clients[i := pc], j), i);
  }

  lemma RemovingUpdate(clients: map<ClientId, Client>, i: ClientId, pc: Client, j: JobId)
    requires i in clients
    ensures Removing(clients[i := pc], j) + (if clients[i] == StuckDone(j) then 1 else 0)
      == Removing(clients, j) + (if pc == StuckDone(j) then 1 else 0)
  {
    SameButOne(RemovingSet(clients, j), RemovingSet(clients[i := pc], j), i);
  }

  lemma SameButOne<T>(a: set<T>, b: set<T>, x: T)
    requires forall y :: y in a + b && y != x ==> (y in a <==> y in b)
    ensures |b| + (if x in a then 1 else 0) == |a| + (if x in b then 1 else 0)
  {
    assert a - {x} == b - {x};
    WithoutOne(a, x);
    WithoutOne(b, x);
  }

  lemma WithoutOne<T>(a: set<T>, x: T)
    ensures |a| == |a - {x}| + if x in a then 1 else 0
  {
    if x !in a { assert a - {x} == a; }
  }

  lemma CardinalityMonotone<T>(a: set<T>, b: set<T>)
    requires a <= b
    ensures |a| <= |b|
  {
    assert b == a + (b - a);
  }

  lemma RemovingAttends(clients: map<ClientId, Client>, i: ClientId, j: JobId)
    requires i in clients && Attends(clients[i], j) && clients[i] != StuckDone(j)
    ensures Removing(clients, j) < Attending(clients, j)
  {
    var attending, removing := AttendingSet(clients, j), RemovingSet(clients, j);
    assert removing <= attending - {i};
    CardinalityMonotone(removing, attending - {i});
    WithoutOne(attending, i);
  }

  lemma RemovingIsAttending(clients: map<ClientId, Client>, j: JobId)
    ensures Removing(clients, j) <= Attending(clients, j)
  {
    CardinalityMonotone(RemovingSet(clients, j), AttendingSet(clients, j));
  }

  // ---------- Each part of the invariant is kept ----------

  lemma AttendedKept(s: System, i: ClientId, a: Action)
    requires Attended(s) && Enabled(s, i, a)
    ensures Attended(Next(s, i, a))
  {
    var t := Next(s, i, a);
    forall j ensures multiset(t.r.intermediate)[j] >= Attending(t.clients, j) {
      AttendingUpdate(s.clients, i, t.clients[i], j);
      AttendedFor(s, i, a, j);
    }
  }

  /** The intermediate queue loses an id only to a client that answers for it. */
  lemma AttendedFor(s: System, i: ClientId, a: Action, j: JobId)
    requires Enabled(s, i, a)
    requires multiset(s.r.intermediate)[j] >= Attending(s.clients, j)
    ensures multiset(NextRedis(s, i, a).intermediate)[j] + (if Attends(s.clients[i], j) then 1 else 0)
      >= Attending(s.clients, j) + (if Attends(NextClient(s, i, a), j) then 1 else 0)
  {
    RemoveFirstIn(s, i, a, j);
  }

  lemma RemoveFirstIn(s: System, i: ClientId, a: Action, j: JobId)
    requires Possible(s, i, a)
    ensures multiset(NextRedis(s, i, a).intermediate)[j] ==
      if a.Dequeue? && s.r.queue[0] == j then multiset(s.r.intermediate)[j] + 1
      else if (a.PrepareJob? || a.StuckRemove?) && s.clients[i].j == j && j in s.r.intermediate
        then multiset(s.r.intermediate)[j] - 1
      else multiset(s.r.intermediate)[j]
  {
    IntermediateChange(s, i, a);
    if a.PrepareJob? || a.StuckRemove? { RemoveFirstCount(s.r.intermediate, s.clients[i].j); }
  }

  lemma IntermediateChange(s: System, i: ClientId, a: Action)
    requires Possible(s, i, a)
    ensures NextRedis(s, i, a).intermediate ==
      if a.Dequeue? then s.r.intermediate + [s.r.queue[0]]
      else if a.PrepareJob? || a.StuckRemove? then RemoveFirst(s.r.intermediate, s.clients[i].j)
      else s.r.intermediate
  {
    if a.SweepExec? {
      RunPipeEffect(s.r, s.clients[i].pipe);
    } else if !s.clients[i].Idle? {
      ClientIntermediateChange(s, i, a);
    }
  }

  lemma ClientIntermediateChange(s: System, i: ClientId, a: Action)
    requires Possible(s, i, a) && !s.clients[i].Idle? && !a.SweepExec?
    ensures NextRedis(s, i, a).intermediate ==
      if a.PrepareJob? || a.StuckRemove? then RemoveFirst(s.r.intermediate, s.clients[i].j) else s.r.intermediate
  {
  }

  lemma {:induction false} RunPipeEffect(r: Redis, pipe: seq<PipeItem>)
    ensures var t := RunPipe(r, pipe);
      && t.jobs.Keys == r.jobs.Keys + PipeJobs(pipe)
      && t.intermediate == r.intermediate && t.started == r.started
      && t.deferred == r.deferred && t.scheduled == r.scheduled
      && (forall j :: j in r.queue ==> j in t.queue)
      && (forall j :: j in r.jobs && j !in PipeJobs(pipe) ==> t.jobs[j] == r.jobs[j])
      && (forall j :: j in PipeJobs(pipe) ==>
            Terminal(t.jobs[j]) || j in t.queue || j in Rescheduled(pipe))
    decreases |pipe|
  {
    if pipe != [] {
      RunPipeEffect(RunItem(r, pipe[0]), pipe[1..]);
      PipeSplit(pipe);
    }
  }

  lemma PipeSplit(pipe: seq<PipeItem>)
    requires pipe != []
    ensures PipeJobs(pipe) == {pipe[0].job} + PipeJobs(pipe[1..])
    ensures Rescheduled(pipe) == (if pipe[0].verdict == Reschedules then {pipe[0].job} else {}) + Rescheduled(pipe[1..])
  {
    assert pipe == [pipe[0]] + pipe[1..];
  }

  lemma PipeSnoc(pipe: seq<PipeItem>, it: PipeItem)
    ensures PipeJobs(pipe + [it]) == PipeJobs(pipe) + {it.job}
    ensures Rescheduled(pipe + [it]) == Rescheduled(pipe) + if it.verdict == Reschedules then {it.job} else {}
  {
  }

  /** What a step takes out of the started registry: entries of its own, or those of a
      job it cancels. */
  ghost function Leaving(s: System, i: ClientId, a: Action): set<Entry>
    requires Possible(s, i, a)
  {
    if a.Succeed? || a.RepeatNow? || a.Fail? || a.RetryNow? || a.CommitSchedule? || a.SweepExec?
      then Owns(s.clients[i])
    else if a.CancelExec? && s.clients[i].seen == Started then s.clients[i].entries
    else {}
  }

  ghost predicate StartedAfter(s: System, i: ClientId, a: Action, t: set<Entry>)
    requires Possible(s, i, a)
  {
    t == if a.PrepareExecution? then s.r.started + {Entry(s.clients[i].j, a.e)} else s.r.started - Leaving(s, i, a)
  }

  lemma RunningStartedChange(s: System, i: ClientId, a: Action)
    requires Possible(s, i, a) && s.clients[i].Running?
    ensures StartedAfter(s, i, a, NextRedis(s, i, a).started)
  {
  }

  lemma ClientStartedChange(s: System, i: ClientId, a: Action)
    requires Possible(s, i, a) && !s.clients[i].Idle? && !s.clients[i].Running? && !a.SweepExec?
    ensures StartedAfter(s, i, a, NextRedis(s, i, a).started)
  {
  }

  lemma StartedChange(s: System, i: ClientId, a: Action)
    requires Possible(s, i, a)
    ensures StartedAfter(s, i, a, NextRedis(s, i, a).started)
  {
    if a.SweepExec? {
      RunPipeEffect(s.r, s.clients[i].pipe);
    } else if s.clients[i].Running? {
      RunningStartedChange(s, i, a);
    } else if !s.clients[i].Idle? {
      ClientStartedChange(s, i, a);
    }
  }

  lemma OwnsChange(s: System, i: ClientId, a: Action)
    requires Enabled(s, i, a)
    ensures var pc, pc' := s.clients[i], NextClient(s, i, a);
      || (a.PrepareExecution? && Owns(pc') == {Entry(pc.j, a.e)})
      || (a.SweepRead? && Owns(pc') == a.entries)
      || Owns(pc') == {}
      || (Owns(pc') == Owns(pc) && !a.Succeed? && !a.RepeatNow? && !a.Fail? && !a.RetryNow? && !a.CommitSchedule? && !a.SweepExec?)
  {
  }

  /** The jobs whose status a step writes. */
  ghost function Writes(s: System, i: ClientId, a: Action): set<JobId>
    requires Possible(s, i, a)
  {
    var pc := s.clients[i];
    match a
    case EnqueueNew(j, _, _) => {j}
    case ParkNew(j, _) => {j}
    case Wake(j, _) => {j}
    case Requeue(j, _) => {j}
    case CancelExec => {pc.j}
    case DrainExec(_) => ToSet(pc.ids) * pc.live
    case SweepMark => {pc.todo[0]}
    case SweepExec => PipeJobs(pc.pipe)
    case ScheduleSave(_) => {pc.j}
    case PrepareJob => {pc.j}
    case Succeed => {pc.j}
    case RepeatNow => {pc.j}
    case Fail(_) => {pc.j}
    case RetryNow(_, _) => {pc.j}
    case RetryMark(_) => {pc.j}
    case CommitSchedule => {pc.j}
    case StuckResolve(_) => {pc.j}
    case StuckMark => {pc.j}
    case StuckCommit => {pc.j}
    case _ => {}
  }

  /** The hashes change only where the step writes, and become exactly one bigger
      where it writes a new one. */
  ghost predicate WritesOnly(r: Redis, t: Redis, written: set<JobId>) {
    && t.jobs.Keys == r.jobs.Keys + written
    && forall j :: j in r.jobs && j !in written ==> t.jobs[j] == r.jobs[j]
  }

  lemma RunningWritesOnly(s: System, i: ClientId, a: Action)
    requires Possible(s, i, a) && s.clients[i].Running?
    ensures WritesOnly(s.r, NextRedis(s, i, a), Writes(s, i, a))
  {
  }

  lemma ClientWritesOnly(s: System, i: ClientId, a: Action)
    requires Possible(s, i, a) && !s.clients[i].Idle? && !a.SweepExec? && !a.DrainExec?
    ensures WritesOnly(s.r, NextRedis(s, i, a), Writes(s, i, a))
  {
    if s.clients[i].Running? { RunningWritesOnly(s, i, a); }
  }

  lemma IdleWritesOnly(s: System, i: ClientId, a: Action)
    requires Possible(s, i, a) && s.clients[i].Idle?
    ensures WritesOnly(s.r, NextRedis(s, i, a), Writes(s, i, a))
  {
    if a.EnqueueNew? || a.Wake? || a.Requeue? {
      assert NextRedis(s, i, a).jobs == s.r.jobs[a.j := Queued];
    }
  }

  lemma StepWritesOnly(s: System, i: ClientId, a: Action)
    requires Possible(s, i, a)
    ensures WritesOnly(s.r, NextRedis(s, i, a), Writes(s, i, a))
  {
    if a.SweepExec? {
      RunPipeEffect(s.r, s.clients[i].pipe);
    } else if s.clients[i].Idle? {
      IdleWritesOnly(s, i, a);
    } else if !a.DrainExec? {
      ClientWritesOnly(s, i, a);
    }
  }

  lemma JobKeysChange(s: System, i: ClientId, a: Action)
    requires Possible(s, i, a)
    ensures NextRedis(s, i, a).jobs.Keys == s.r.jobs.Keys + Writes(s, i, a)
  {
    StepWritesOnly(s, i, a);
  }

  /** Saved jobs stay saved; a new one is either new to the system or the one a
      client was saving. */
  lemma JobsChange(s: System, i: ClientId, a: Action)
    requires Ownership(s) && Locals(s) && Enabled(s, i, a)
    ensures NextRedis(s, i, a).jobs.Keys == s.r.jobs.Keys
      + (if a.EnqueueNew? || a.ParkNew? then {a.j} else if a.ScheduleSave? then {s.clients[i].j} else {})
  {
    var pc := s.clients[i];
    JobKeysChange(s, i, a);
    assert LocalOk(s.r, s.claimed, pc);
    OwnedJobSaved(s, i);
    if a.SweepMark? { SweepTodoSaved(s, i, pc.todo[0]); }
    assert a.SweepExec? ==> PipeJobs(pc.pipe) <= s.r.jobs.Keys;
  }

  lemma SweepTodoSaved(s: System, i: ClientId, j: JobId)
    requires Ownership(s) && Locals(s) && i in s.clients
    requires s.clients[i].Sweeping? || s.clients[i].SweepFetched? || s.clients[i].SweepMarked?
    requires j in s.clients[i].todo
    ensures j in s.r.jobs && InStarted(s.r, j)
  {
    var pc := s.clients[i];
    assert LocalOk(s.r, s.claimed, pc);
    assert InEntries(pc.entries, j);
    var e :| Entry(j, e) in pc.entries;
    assert Entry(j, e) in Owns(pc);
  }

  /** What the acting client owns afterwards is there, is new or its own, and nobody else's. */
  lemma OwnEntriesKept(s: System, i: ClientId, a: Action)
    requires Support(s) && Enabled(s, i, a)
    ensures var owned := Owns(NextClient(s, i, a));
      && owned <= NextRedis(s, i, a).started
      && forall k :: k in s.clients && k != i ==> owned !! Owns(s.clients[k])
  {
    StartedChange(s, i, a);
    OwnsChange(s, i, a);
    if a.PrepareExecution? {
      forall k | k in s.clients ensures Entry(s.clients[i].j, a.e) !in Owns(s.clients[k]) {
      }
    }
  }

  lemma OtherEntriesKept(s: System, i: ClientId, a: Action, k: ClientId)
    requires Support(s) && Enabled(s, i, a) && k in s.clients && k != i
    ensures Owns(s.clients[k]) <= NextRedis(s, i, a).started
  {
    StartedChange(s, i, a);
    assert Owns(s.clients[i]) !! Owns(s.clients[k]);
  }

  lemma EntriesSaved(s: System, i: ClientId, a: Action)
    requires Support(s) && Enabled(s, i, a)
    ensures var t := Next(s, i, a);
      forall en :: en in t.r.started ==> en.exec in t.execs && en.job in t.r.jobs
  {
    StartedChange(s, i, a);
    JobKeysChange(s, i, a);
    if a.PrepareExecution? { NewEntrySaved(s, i, a); }
  }

  lemma NewEntrySaved(s: System, i: ClientId, a: Action)
    requires Possible(s, i, a) && a.PrepareExecution?
    ensures s.clients[i].j in s.r.jobs && a.e in Next(s, i, a).execs
  {
  }

  lemma OwnershipKept(s: System, i: ClientId, a: Action)
    requires Support(s) && Enabled(s, i, a)
    ensures Ownership(Next(s, i, a))
  {
    var t := Next(s, i, a);
    OwnEntriesKept(s, i, a);
    EntriesSaved(s, i, a);
    assert t.clients == s.clients[i := t.clients[i]];
    forall k | k in t.clients ensures Owns(t.clients[k]) <= t.r.started {
      if k != i { OtherEntriesKept(s, i, a, k); }
    }
  }

  /** What a step adds to the scheduled registry, to be followed by its transaction. */
  ghost function Zadded(s: System, i: ClientId, a: Action): set<JobId>
    requires Possible(s, i, a)
  {
    if a.ScheduleAdd? then {a.j}
    else if a.RepeatAdd? || a.RetryAdd? || a.StuckAdd? then {s.clients[i].j}
    else if a.SweepAdd? then {s.clients[i].todo[0]}
    else {}
  }

  lemma PendingChange(s: System, i: ClientId, a: Action)
    requires Enabled(s, i, a)
    ensures Pending(NextClient(s, i, a)) <= Pending(s.clients[i]) + Zadded(s, i, a)
  {
    var pc := s.clients[i];
    if a.SweepDecide? {
      PipeSnoc(pc.pipe, PipeItem(pc.todo[0], a.verdict));
    } else if a.SweepAdd? {
      PipeSnoc(pc.pipe, PipeItem(pc.todo[0], Reschedules));
    } else {
      OtherPendingChange(s, i, a);
    }
  }

  lemma OtherPendingChange(s: System, i: ClientId, a: Action)
    requires Enabled(s, i, a) && !a.SweepDecide? && !a.SweepAdd?
    ensures Pending(NextClient(s, i, a)) <= Pending(s.clients[i]) + Zadded(s, i, a)
  {
  }

  /** What a step takes out of the scheduled registry. */
  ghost function Zremoved(s: System, i: ClientId, a: Action): set<JobId>
    requires Possible(s, i, a)
  {
    if a.DrainExec? then ToSet(s.clients[i].ids)
    else if a.CancelExec? && s.clients[i].seen == Scheduled then {s.clients[i].j}
    else {}
  }

  lemma ScheduledChange(s: System, i: ClientId, a: Action)
    requires Possible(s, i, a)
    ensures NextRedis(s, i, a).scheduled == s.r.scheduled + Zadded(s, i, a) - Zremoved(s, i, a)
  {
    if a.SweepExec? {
      RunPipeEffect(s.r, s.clients[i].pipe);
    } else if !s.clients[i].Idle? {
      ClientScheduledChange(s, i, a);
    }
  }

  lemma ClientScheduledChange(s: System, i: ClientId, a: Action)
    requires Possible(s, i, a) && !s.clients[i].Idle? && !a.SweepExec?
    ensures NextRedis(s, i, a).scheduled == s.r.scheduled + Zadded(s, i, a) - Zremoved(s, i, a)
  {
  }

  lemma PendingScheduledKept(s: System, i: ClientId, a: Action)
    requires PendingScheduled(s) && Enabled(s, i, a)
    ensures PendingScheduled(Next(s, i, a))
  {
    var t := Next(s, i, a);
    PendingChange(s, i, a);
    ScheduledChange(s, i, a);
    assert t.clients == s.clients[i := t.clients[i]];
    forall k | k in t.clients ensures Pending(t.clients[k]) <= t.r.scheduled {
      if a.DrainExec? { assert Pending(s.clients[k]) !! ToSet(s.clients[i].ids); }
    }
  }

  /** The acting client's new variables. */
  lemma OwnLocalOk(s: System, i: ClientId, a: Action)
    requires Support(s) && Enabled(s, i, a)
    ensures LocalOk(NextRedis(s, i, a), s.claimed + NewIds(a), NextClient(s, i, a))
  {
    var r, pc := s.r, s.clients[i];
    JobsChange(s, i, a);
    assert LocalOk(r, s.claimed, pc);
    if a.SweepRead? {
      SweepBegins(r, a.entries, a.todo);
    } else if a.SweepDecide? {
      SweepAdvances(r, pc.entries, pc.todo, pc.pipe, PipeItem(pc.todo[0], a.verdict));
    } else if a.SweepAdd? {
      SweepAdvances(r, pc.entries, pc.todo, pc.pipe, PipeItem(pc.todo[0], Reschedules));
    }
  }

  lemma SweepBegins(r: Redis, entries: set<Entry>, todo: seq<JobId>)
    requires entries <= r.started && (forall en :: en in r.started ==> en.job in r.jobs)
    requires ToSet(todo) == set en | en in entries && en.job in r.jobs :: en.job
    ensures SweepOk(r, entries, todo, [])
  {
    forall en | en in entries ensures en.job in todo {
      assert en in r.started;
      assert en.job in ToSet(todo);
    }
    forall j | j in todo ensures InEntries(entries, j) {
      assert j in ToSet(todo);
      var en :| en in entries && en.job in r.jobs && en.job == j;
      assert Entry(j, en.exec) in entries;
    }
  }

  lemma SweepAdvances(r: Redis, entries: set<Entry>, todo: seq<JobId>, pipe: seq<PipeItem>, it: PipeItem)
    requires SweepOk(r, entries, todo, pipe) && todo != [] && it.job == todo[0]
    requires forall en :: en in entries ==> en.job in r.jobs
    ensures SweepOk(r, entries, todo[1..], pipe + [it])
  {
    PipeSnoc(pipe, it);
    assert todo == [todo[0]] + todo[1..];
    assert InEntries(entries, todo[0]);
  }

  lemma OthersLocalOk(s: System, i: ClientId, a: Action, k: ClientId)
    requires Support(s) && Enabled(s, i, a) && k in s.clients && k != i
    ensures LocalOk(NextRedis(s, i, a), s.claimed + NewIds(a), s.clients[k])
  {
    JobsChange(s, i, a);
    assert LocalOk(s.r, s.claimed, s.clients[k]);
  }

  lemma SaversDiffer(s: System, i: ClientId, a: Action, k: ClientId)
    requires Support(s) && Enabled(s, i, a) && k in s.clients && k != i
    ensures NextClient(s, i, a).Saving? || s.clients[k].Saving? ==> NextClient(s, i, a) != s.clients[k]
  {
    assert LocalOk(s.r, s.claimed, s.clients[k]);
  }

  lemma LocalOkFor(s: System, i: ClientId, a: Action, k: ClientId)
    requires Support(s) && Enabled(s, i, a) && k in s.clients
    ensures var t := Next(s, i, a); k in t.clients && LocalOk(t.r, t.claimed, t.clients[k])
  {
    if k == i { OwnLocalOk(s, i, a); } else { OthersLocalOk(s, i, a, k); }
    SameLocal(NextRedis(s, i, a), s.r.left + SavedLeft(s, i, a), s.claimed + NewIds(a), Next(s, i, a).clients[k]);
  }

  lemma SameLocal(r: Redis, left: map<JobId, Counters>, claimed: set<JobId>, pc: Client)
    ensures LocalOk(r.(left := left), claimed, pc) == LocalOk(r, claimed, pc)
  {
  }

  lemma SaversFor(s: System, i: ClientId, a: Action, k: ClientId, l: ClientId)
    requires Support(s) && Enabled(s, i, a) && k in s.clients && l in s.clients && k != l
    ensures var t := Next(s, i, a);
      k in t.clients && l in t.clients && (t.clients[k].Saving? ==> t.clients[l] != t.clients[k])
  {
    if k == i { SaversDiffer(s, i, a, l); } else if l == i { SaversDiffer(s, i, a, k); }
  }

  lemma LocalsKept(s: System, i: ClientId, a: Action)
    requires Support(s) && Enabled(s, i, a)
    ensures Locals(Next(s, i, a))
  {
    ClaimedKept(s, i, a);
    assert Next(s, i, a).clients.Keys == s.clients.Keys;
    forall k | k in s.clients ensures LocalOk(Next(s, i, a).r, Next(s, i, a).claimed, Next(s, i, a).clients[k]) {
      LocalOkFor(s, i, a, k);
    }
    forall k, l | k in s.clients && l in s.clients && k != l && Next(s, i, a).clients[k].Saving?
      ensures Next(s, i, a).clients[l] != Next(s, i, a).clients[k]
    {
      SaversFor(s, i, a, k, l);
    }
  }

  lemma ClaimedKept(s: System, i: ClientId, a: Action)
    requires Support(s) && Enabled(s, i, a)
    ensures Next(s, i, a).r.jobs.Keys <= Next(s, i, a).claimed
  {
    JobsChange(s, i, a);
    assert LocalOk(s.r, s.claimed, s.clients[i]);
  }

  lemma ScheduledStayClaimed(s: System, i: ClientId, a: Action)
    requires Support(s) && Enabled(s, i, a)
    ensures Next(s, i, a).r.scheduled <= Next(s, i, a).claimed
  {
    ScheduledChange(s, i, a);
    AddedAreClaimed(s, i, a);
  }

  lemma AddedAreClaimed(s: System, i: ClientId, a: Action)
    requires Support(s) && Enabled(s, i, a)
    ensures Zadded(s, i, a) <= s.claimed + NewIds(a)
  {
    assert LocalOk(s.r, s.claimed, s.clients[i]);
    if a.SweepAdd? { SweepTodoSaved(s, i, s.clients[i].todo[0]); }
    OwnedJobSaved(s, i);
  }

  lemma OwnDrainOk(s: System, i: ClientId, a: Action, j: JobId)
    requires Support(s) && Enabled(s, i, a) && NextClient(s, i, a).Draining?
    requires j in NextClient(s, i, a).ids && j !in NextClient(s, i, a).live
    ensures StaysMissing(Next(s, i, a), j)
  {
    assert a.DrainRead? && j in s.r.scheduled;
    forall m | m in s.clients && m != i ensures s.clients[m] != Saving(j) {
      assert Pending(s.clients[m]) !! ToSet(a.ids);
    }
  }

  lemma OtherDrainOk(s: System, i: ClientId, a: Action, k: ClientId, j: JobId)
    requires Support(s) && Enabled(s, i, a) && k != i && Drains(s, k, j)
    ensures StaysMissing(Next(s, i, a), j)
  {
    assert StaysMissing(s, j) && s.clients[i] != Saving(j);
    JobsChange(s, i, a);
    NewSaverIsNew(s, i, a, j);
  }

  lemma DrainOkFor(s: System, i: ClientId, a: Action, k: ClientId, j: JobId)
    requires Support(s) && Enabled(s, i, a) && Drains(Next(s, i, a), k, j)
    ensures StaysMissing(Next(s, i, a), j)
  {
    if k == i { OwnDrainOk(s, i, a, j); } else { OtherDrainOk(s, i, a, k, j); }
  }

  lemma DrainsOkKept(s: System, i: ClientId, a: Action)
    requires Support(s) && Enabled(s, i, a)
    ensures DrainsOk(Next(s, i, a))
  {
    ScheduledStayClaimed(s, i, a);
    forall k, j | Drains(Next(s, i, a), k, j) ensures StaysMissing(Next(s, i, a), j) {
      DrainOkFor(s, i, a, k, j);
    }
  }

  lemma NewSaverIsNew(s: System, i: ClientId, a: Action, j: JobId)
    requires Possible(s, i, a)
    ensures NextClient(s, i, a) == Saving(j) ==> j !in s.claimed
  {
  }

  lemma OwnedJobSaved(s: System, i: ClientId)
    requires Ownership(s) && i in s.clients
    ensures var pc := s.clients[i];
      pc.Prepared? || pc.Running? || pc.Marked? || pc.Added? ==> pc.j in s.r.jobs && Entry(pc.j, pc.e) in s.r.started
  {
    var pc := s.clients[i];
    if pc.Prepared? || pc.Running? || pc.Marked? || pc.Added? {
      assert Entry(pc.j, pc.e) in Owns(pc);
    }
  }

  lemma SupportKept(s: System, i: ClientId, a: Action)
    requires Support(s) && Enabled(s, i, a)
    ensures Support(Next(s, i, a))
  {
    AttendedKept(s, i, a);
    OwnershipKept(s, i, a);
    PendingScheduledKept(s, i, a);
    LocalsKept(s, i, a);
    DrainsOkKept(s, i, a);
  }

  // ---------- Nothing is lost ----------

  lemma {:induction false} PushAllKeeps(xs: seq<JobId>, ids: seq<JobId>, live: set<JobId>, fronts: set<JobId>)
    ensures forall j :: j in PushAll(xs, ids, live, fronts) <==> j in xs || (j in ids && j in live)
    decreases |ids|
  {
    if ids != [] {
      var ys := if ids[0] in live then Push(xs, ids[0], ids[0] in fronts) else xs;
      PushAllKeeps(ys, ids[1..], live, fronts);
      assert forall j :: j in ids <==> j == ids[0] || j in ids[1..];
    }
  }

  /** Where a job goes when its status is written to a non-terminal one. */
  lemma WrittenAreLocated(s: System, i: ClientId, a: Action, j: JobId)
    requires Support(s) && Enabled(s, i, a) && j in Writes(s, i, a)
    ensures var t := NextRedis(s, i, a);
      j in t.jobs && (Terminal(t.jobs[j]) || Located(t, j, Removing(Next(s, i, a).clients, j)))
  {
    if a.DrainExec? || a.SweepExec? || a.SweepMark? {
      BulkWritesLocated(s, i, a, j);
    } else if a.StuckMark? || a.ScheduleSave? || a.CommitSchedule? || a.StuckCommit? {
      ScheduleWritesLocated(s, i, a, j);
    } else {
      OtherWritesLocated(s, i, a, j);
    }
  }

  lemma OtherWritesLocated(s: System, i: ClientId, a: Action, j: JobId)
    requires Support(s) && Enabled(s, i, a) && j in Writes(s, i, a)
    requires !a.DrainExec? && !a.SweepExec? && !a.SweepMark?
    requires !a.StuckMark? && !a.ScheduleSave? && !a.CommitSchedule? && !a.StuckCommit?
    ensures var t := NextRedis(s, i, a);
      j in t.jobs && (Terminal(t.jobs[j]) || j in t.queue || j in t.deferred || InStarted(t, j))
  {
    if a.PrepareJob? || a.RetryMark? {
      OwnedJobSaved(s, i);
      assert InStarted(NextRedis(s, i, a), j);
    }
  }

  lemma BulkWritesLocated(s: System, i: ClientId, a: Action, j: JobId)
    requires Support(s) && Enabled(s, i, a) && j in Writes(s, i, a)
    requires a.DrainExec? || a.SweepExec? || a.SweepMark?
    ensures var t := NextRedis(s, i, a);
      j in t.jobs && (Terminal(t.jobs[j]) || j in t.queue || j in t.scheduled || InStarted(t, j))
  {
    var pc := s.clients[i];
    if a.DrainExec? {
      PushAllKeeps(s.r.queue, pc.ids, pc.live, a.fronts);
    } else if a.SweepExec? {
      RunPipeEffect(s.r, pc.pipe);
      assert Rescheduled(pc.pipe) == Pending(pc);
    } else {
      SweepTodoSaved(s, i, j);
      StartedChange(s, i, a);
    }
  }

  lemma ScheduleWritesLocated(s: System, i: ClientId, a: Action, j: JobId)
    requires Support(s) && Enabled(s, i, a) && j in Writes(s, i, a)
    requires a.StuckMark? || a.ScheduleSave? || a.CommitSchedule? || a.StuckCommit?
    ensures var t := NextRedis(s, i, a);
      j in t.jobs && Located(t, j, Removing(Next(s, i, a).clients, j))
  {
    if a.StuckMark? {
      RemovingUpdate(s.clients, i, NextClient(s, i, a), j);
      RemovingAttends(s.clients, i, j);
      assert multiset(s.r.intermediate)[j] >= Attending(s.clients, j);
    } else {
      assert j in Pending(s.clients[i]);
    }
  }

  lemma ClientQueueKept(s: System, i: ClientId, a: Action, j: JobId)
    requires Possible(s, i, a) && !s.clients[i].Idle? && !a.DrainExec? && !a.SweepExec? && !a.CancelExec?
    requires j in s.r.queue
    ensures j in NextRedis(s, i, a).queue
  {
  }

  lemma QueueKept(s: System, i: ClientId, a: Action, j: JobId)
    requires Enabled(s, i, a) && j !in Writes(s, i, a) && j in s.r.queue
    ensures j in NextRedis(s, i, a).queue || (a.Dequeue? && j == s.r.queue[0])
  {
    var pc := s.clients[i];
    if a.Dequeue? {
      assert s.r.queue == [s.r.queue[0]] + s.r.queue[1..];
    } else if a.DrainExec? {
      PushAllKeeps(s.r.queue, pc.ids, pc.live, a.fronts);
    } else if a.SweepExec? {
      RunPipeEffect(s.r, pc.pipe);
    } else if a.CancelExec? {
      RemoveFirstOther(s.r.queue, pc.j, j);
    } else if !pc.Idle? {
      ClientQueueKept(s, i, a, j);
    }
  }

  /** A job that a step leaves alone stays within reach. */
  lemma OthersStayLocated(s: System, i: ClientId, a: Action, j: JobId)
    requires Support(s) && Enabled(s, i, a) && j !in Writes(s, i, a)
    requires j in s.r.jobs && Located(s.r, j, Removing(s.clients, j))
    ensures Located(NextRedis(s, i, a), j, Removing(Next(s, i, a).clients, j))
  {
    if j in s.r.queue {
      QueuedStayLocated(s, i, a, j);
    } else if multiset(s.r.intermediate)[j] > Removing(s.clients, j) {
      IntermediateStayLocated(s, i, a, j);
    } else if InStarted(s.r, j) {
      StartedKept(s, i, a, j);
    } else if j in s.r.deferred {
      DeferredKept(s, i, a, j);
    } else {
      ScheduledKept(s, i, a, j);
    }
  }

  lemma QueuedStayLocated(s: System, i: ClientId, a: Action, j: JobId)
    requires Support(s) && Enabled(s, i, a) && j !in Writes(s, i, a) && j in s.r.queue
    ensures Located(NextRedis(s, i, a), j, Removing(Next(s, i, a).clients, j))
  {
    QueueKept(s, i, a, j);
    if a.Dequeue? && j == s.r.queue[0] { DequeuedIsLocated(s, i, a, j); }
  }

  lemma IntermediateStayLocated(s: System, i: ClientId, a: Action, j: JobId)
    requires Support(s) && Enabled(s, i, a) && j !in Writes(s, i, a)
    requires multiset(s.r.intermediate)[j] > Removing(s.clients, j)
    ensures multiset(NextRedis(s, i, a).intermediate)[j] > Removing(Next(s, i, a).clients, j)
  {
    RemovingUpdate(s.clients, i, NextClient(s, i, a), j);
    RemoveFirstIn(s, i, a, j);
    NewRemoversWriteOrRemove(s, i, a, j);
  }

  lemma ScheduledKept(s: System, i: ClientId, a: Action, j: JobId)
    requires Support(s) && Enabled(s, i, a) && j !in Writes(s, i, a)
    requires j in s.r.jobs && j in s.r.scheduled
    ensures j in NextRedis(s, i, a).scheduled
  {
    ScheduledChange(s, i, a);
    if a.DrainExec? { DroppedAreMissing(s, i); }
  }

  lemma DroppedAreMissing(s: System, i: ClientId)
    requires DrainsOk(s) && i in s.clients && s.clients[i].Draining?
    ensures forall j :: j in s.clients[i].ids && j !in s.clients[i].live ==> j !in s.r.jobs
  {
    forall j | j in s.clients[i].ids && j !in s.clients[i].live ensures j !in s.r.jobs {
      assert Drains(s, i, j);
    }
  }

  lemma StatusKept(s: System, i: ClientId, a: Action, j: JobId)
    requires Support(s) && Enabled(s, i, a) && j !in Writes(s, i, a) && j in s.r.jobs
    ensures j in NextRedis(s, i, a).jobs && NextRedis(s, i, a).jobs[j] == s.r.jobs[j]
  {
    StepWritesOnly(s, i, a);
  }

  lemma DequeuedIsLocated(s: System, i: ClientId, a: Action, j: JobId)
    requires Support(s) && Enabled(s, i, a) && a.Dequeue? && j == s.r.queue[0]
    ensures var t := Next(s, i, a);
      multiset(t.r.intermediate)[j] > Removing(t.clients, j)
  {
    RemovingUpdate(s.clients, i, Dequeued(j), j);
    RemovingIsAttending(s.clients, j);
    RemoveFirstIn(s, i, a, j);
  }

  lemma NewRemoversWriteOrRemove(s: System, i: ClientId, a: Action, j: JobId)
    requires Enabled(s, i, a) && j !in Writes(s, i, a)
    ensures NextClient(s, i, a) == StuckDone(j) ==> s.clients[i] == StuckDone(j)
    ensures a.StuckRemove? && s.clients[i].j == j ==> s.clients[i] == StuckDone(j) && NextClient(s, i, a) != StuckDone(j)
  {
  }

  lemma StartedKept(s: System, i: ClientId, a: Action, j: JobId)
    requires Support(s) && Enabled(s, i, a) && j !in Writes(s, i, a) && InStarted(s.r, j)
    ensures InStarted(NextRedis(s, i, a), j)
  {
    StartedChange(s, i, a);
    var e :| Entry(j, e) in s.r.started;
    var pc := s.clients[i];
    assert LocalOk(s.r, s.claimed, pc);
    assert Entry(j, e) in NextRedis(s, i, a).started;
  }

  lemma DeferredKept(s: System, i: ClientId, a: Action, j: JobId)
    requires Enabled(s, i, a) && j !in Writes(s, i, a) && j in s.r.deferred
    ensures j in NextRedis(s, i, a).deferred
  {
    if a.SweepExec? { RunPipeEffect(s.r, s.clients[i].pipe); }
  }

  lemma NothingLostKept(s: System, i: ClientId, a: Action)
    requires Invariant(s) && Enabled(s, i, a)
    ensures NothingLost(Next(s, i, a))
  {
    var t := Next(s, i, a);
    forall j | j in t.r.jobs && !Terminal(t.r.jobs[j]) ensures Located(t.r, j, Removing(t.clients, j)) {
      if j in Writes(s, i, a) {
        WrittenAreLocated(s, i, a, j);
      } else {
        JobsChange(s, i, a);
        StatusKept(s, i, a, j);
        OthersStayLocated(s, i, a, j);
      }
    }
  }

  // ---------- Whole runs ----------

  datatype Step = Step(client: ClientId, action: Action)

  ghost predicate Takes(s: System, step: Step, t: System) {
    Enabled(s, step.client, step.action) && t == Next(s, step.client, step.action)
  }

  ghost predicate TakesAt(steps: seq<Step>, states: seq<System>, k: nat)
    requires k < |steps| && |states| == |steps| + 1
  {
    Takes(states[k], steps[k], states[k + 1])
  }

  /** A run from an initial state, with the states it passes. */
  ghost predicate Run(steps: seq<Step>, states: seq<System>) {
    && |states| == |steps| + 1 && Initial(states[0])
    && forall k :: 0 <= k < |steps| ==> TakesAt(steps, states, k)
  }

  lemma {:induction false} RunsKeepInvariant(steps: seq<Step>, states: seq<System>, k: nat)
    requires Run(steps, states) && k <= |steps|
    ensures Invariant(states[k])
  {
    if k == 0 {
      InitialInvariant(states[0]);
    } else {
      RunsKeepInvariant(steps, states, k - 1);
      assert TakesAt(steps, states, k - 1);
      SupportKept(states[k - 1], steps[k - 1].client, steps[k - 1].action);
      NothingLostKept(states[k - 1], steps[k - 1].client, steps[k - 1].action);
    }
  }

  lemma InitialInvariant(s: System)
    requires Initial(s)
    ensures Invariant(s)
  {
    forall j ensures Attending(s.clients, j) == 0 {
      assert AttendingSet(s.clients, j) == {};
    }
  }

  /** Crash conservation: whatever the clients do and wherever they die, a saved
      job that has not reached a terminal status is in the queue, the intermediate
      queue, or the started, deferred or scheduled registry. */
  lemma NoJobIsLost(steps: seq<Step>, states: seq<System>, j: JobId)
    requires Run(steps, states)
    requires j in states[|steps|].r.jobs && !Terminal(states[|steps|].r.jobs[j])
    ensures var r := states[|steps|].r;
      || j in r.queue
      || j in r.intermediate
      || (exists e :: Entry(j, e) in r.started)
      || j in r.deferred
      || j in r.scheduled
  {
    RunsKeepInvariant(steps, states, |steps|);
    assert Located(states[|steps|].r, j, Removing(states[|steps|].clients, j));
  }
}
