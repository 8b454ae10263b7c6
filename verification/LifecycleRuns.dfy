/** Whole runs of the lifecycle: a job's status names its registry in every
    reachable state, and the counters bound how often a job can be started. */
module LifecycleRuns {
  import opened Common
  import opened Lifecycle
  import I = Intervals

  predicate Possible(s: State, es: seq<Event>)
    decreases |es|
  {
    es == [] || (Enabled(s, es[0]) && Possible(Apply(s, es[0]), es[1..]))
  }

  function Final(s: State, es: seq<Event>): State
    requires Possible(s, es)
    decreases |es|
  {
    if es == [] then s else Final(Apply(s, es[0]), es[1..])
  }

  /** How often job `k` is started during the run. */
  function Starts(s: State, es: seq<Event>, k: JobId): nat
    requires Possible(s, es)
    decreases |es|
  {
    if es == [] then 0
    else (if es[0].StartJob? && Subject(s, es[0]) == k then 1 else 0) + Starts(Apply(s, es[0]), es[1..], k)
  }

  // ---------- Status and location agree in every reachable state ----------

  /** No job is canceled while it executes and the default exception handler is on
      whenever one is given up. */
  ghost predicate CarefulRun(s: State, es: seq<Event>)
    requires Possible(s, es)
    decreases |es|
  {
    es == [] || (CarefulHere(s, es[0]) && CarefulRun(Apply(s, es[0]), es[1..]))
  }

  ghost predicate CarefulHere(s: State, e: Event)
    requires Enabled(s, e)
  {
    SubjectIsReady(s, e);
    Careful(View(s, Subject(s, e)), e)
  }

  /** Whether job `k` is still listed as finished although a repeat put it back. */
  ghost predicate ListedAfter(s: State, es: seq<Event>, k: JobId, listed: bool)
    requires Possible(s, es)
    decreases |es|
  {
    if es == [] then listed
    else ListedAfter(Apply(s, es[0]), es[1..], k, ListedNext(s, es[0], k, listed))
  }

  ghost predicate ListedNext(s: State, e: Event, k: JobId, listed: bool)
    requires Enabled(s, e)
  {
    SubjectIsReady(s, e);
    if k == Subject(s, e) then StillListed(View(s, k), listed, e) else listed
  }

  lemma {:induction false} AgreementKept(s: State, es: seq<Event>, k: JobId, listed: bool)
    requires Possible(s, es) && CarefulRun(s, es) && Agrees(View(s, k), listed)
    ensures Agrees(View(Final(s, es), k), ListedAfter(s, es, k, listed))
    decreases |es|
  {
    if es != [] {
      var e := es[0];
      PlacesAreIndependent(s, e, k);
      if k == Subject(s, e) { AgreementKeptExactly(View(s, k), e, listed); }
      AgreementKept(Apply(s, e), es[1..], k, ListedNext(s, e, k, listed));
    }
  }

  datatype Registry = FinishedRegistry | FailedRegistry | DeferredRegistry | ScheduledRegistry | CanceledRegistry | StartedRegistry

  function RegistriesOf(s: State, k: JobId): set<Registry> {
    (if k in s.finished then {FinishedRegistry} else {}) + (if k in s.failed then {FailedRegistry} else {})
    + (if k in s.deferred then {DeferredRegistry} else {}) + (if k in s.scheduled then {ScheduledRegistry} else {})
    + (if k in s.canceled then {CanceledRegistry} else {}) + (if k in s.started then {StartedRegistry} else {})
  }

  /** The registry that goes with a status; a queued job is in none. */
  function Named(st: JobStatus): set<Registry> {
    match st
    case Finished => {FinishedRegistry}
    case Failed => {FailedRegistry}
    case Stopped => {FailedRegistry}
    case Deferred => {DeferredRegistry}
    case Scheduled => {ScheduledRegistry}
    case Canceled => {CanceledRegistry}
    case Started => {StartedRegistry}
    case _ => {}
  }

  function Times(xs: seq<JobId>, k: JobId): nat {
    multiset(xs)[k]
  }

  /** In every reachable state: the job's registries are exactly the one its status
      names (and the finished one, if an earlier success was repeated), and it is on
      the queue once if it is QUEUED and not at all otherwise. A job that is not saved,
      or not any more, is nowhere else. */
  lemma StatusNamesTheRegistry(es: seq<Event>, k: JobId)
    requires Possible(Empty, es) && CarefulRun(Empty, es)
    ensures var s := Final(Empty, es);
      var extra := if ListedAfter(Empty, es, k, false) then {FinishedRegistry} else {};
      if k in s.jobs then
        && RegistriesOf(s, k) == Named(s.jobs[k].status) + extra
        && Times(s.queue, k) == (if s.jobs[k].status == Queued then 1 else 0)
      else RegistriesOf(s, k) == extra && Times(s.queue, k) == 0
  {
    assert Agrees(View(Empty, k), false);
    AgreementKept(Empty, es, k, false);
    AgreementNames(Final(Empty, es), k, ListedAfter(Empty, es, k, false));
  }

  lemma AgreementNames(s: State, k: JobId, listed: bool)
    requires Agrees(View(s, k), listed)
    ensures k in s.jobs ==>
      && RegistriesOf(s, k) == Named(s.jobs[k].status) + (if listed then {FinishedRegistry} else {})
      && Times(s.queue, k) == (if s.jobs[k].status == Queued then 1 else 0)
    ensures k !in s.jobs ==>
      RegistriesOf(s, k) == (if listed then {FinishedRegistry} else {}) && Times(s.queue, k) == 0
  {
  }

  // ---------- Bounded life ----------

  /** Re-enqueues a job has left, when no returned Retry asks for more than `m`. */
  function Budget(job: Job, m: nat): nat {
    job.retriesLeft + (if job.retries < m then m - job.retries else 0) + job.repeatsLeft
  }

  predicate WithinLimit(e: Event, m: nat) {
    (e.ReturnRetry? ==> e.max <= m) && !e.Requeue?
  }

  predicate Creates(e: Event) {
    e.EnqueueNew? || e.ParkNew? || e.ScheduleNew?
  }

  /** Everywhere a job can wait from which it will be started. */
  function Waits(p: Place): nat {
    p.queued + (if p.deferred then 1 else 0) + (if p.scheduled.Some? then 1 else 0)
  }

  /** The job is saved as QUEUED or SCHEDULED. */
  predicate Again(q: Place) {
    Is(q, Queued) || Is(q, Scheduled)
  }

  /** The event puts the job back to wait, rather than moving it along. */
  predicate Reenqueues(q: Place, e: Event) {
    Again(q) && !e.Wake? && !e.Drain?
  }

  /** From `p` to `q` the job uses `n` of its budget, and waits in no more than `n`
      further places. */
  predicate Uses(p: Place, q: Place, n: int, m: nat) {
    && p.job.Some? && q.job.Some?
    && Budget(q.job.value, m) == Budget(p.job.value, m) - n
    && Waits(q) <= Waits(p) + n
  }

  lemma WaitingUses(p: Place, job: Job, interval: nat, before: Job, m: nat)
    requires p.job == Some(before) && Budget(job, m) == Budget(before, m) - 1
    ensures Again(Waiting(p, job, interval)) && Uses(p, Waiting(p, job, interval), 1, m)
  {
    var q := Waiting(p, job, interval);
    assert Waits(q) <= Waits(p) + 1;
    assert q.job.Some? && Budget(q.job.value, m) == Budget(job, m);
  }

  lemma FailureUses(p: Place, stopped: bool, recorded: bool, m: nat)
    requires p.job.Some? && SoundIntervals(p.job.value)
    ensures var q := FailureOf(p, p.job.value, stopped, recorded); Uses(p, q, if Again(q) then 1 else 0, m)
  {
    var job := p.job.value;
    if !stopped && job.retriesLeft > 0 {
      WaitingUses(p, Retried(job), I.RetryInterval(job.retriesLeft, job.retryIntervals), job, m);
    }
  }

  lemma OverUses(p: Place, q: Place, n: int, m: nat)
    requires Uses(p, q, n, m)
    ensures Uses(p, Over(q), n, m) && (Again(Over(q)) <==> Again(q))
  {
  }

  /** The job is deleted after its last success. */
  predicate Deletes(p: Place, e: Event)
    requires Ready(p, e)
  {
    e.Succeed? && !e.kept && p.job.value.repeatsLeft == 0
  }

  lemma SuccessUses(p: Place, e: Event, m: nat)
    requires e.Succeed? && Ready(p, e) && !Deletes(p, e)
    ensures Uses(p, Step(p, e), if Again(Step(p, e)) then 1 else 0, m)
  {
    var job := p.job.value;
    var done := if e.kept then Stored(p, job, Finished).(finished := true) else p;
    if job.repeatsLeft > 0 {
      WaitingUses(done, Repeated(job), RepeatAfter(job), done.job.value, m);
      OverUses(done, Waiting(done, Repeated(job), RepeatAfter(job)), 1, m);
    }
  }

  lemma RetryUses(p: Place, e: Event, m: nat)
    requires e.ReturnRetry? && Ready(p, e) && e.max <= m
    ensures Uses(p, Step(p, e), if Again(Step(p, e)) then 1 else 0, m)
  {
    var job := p.job.value;
    if !RetriesExceeded(job, e.max) {
      var q := Waiting(p, job.(retries := job.retries + 1), I.ReturnedInterval(job.retries, e.intervals));
      WaitingUses(p, job.(retries := job.retries + 1), I.ReturnedInterval(job.retries, e.intervals), job, m);
      OverUses(p, q, 1, m);
    }
  }

  lemma FailJobUses(p: Place, e: Event, m: nat)
    requires (e.FailJob? || e.Abandon?) && Ready(p, e)
    ensures Uses(p, Step(p, e), if Again(Step(p, e)) then 1 else 0, m)
  {
    var stopped, recorded := e.FailJob? && e.stopped, e.Abandon? || e.recorded;
    var q := FailureOf(p, p.job.value, stopped, recorded);
    FailureUses(p, stopped, recorded, m);
    OverUses(p, q, if Again(q) then 1 else 0, m);
  }

  lemma CleanStuckUses(p: Place, e: Event, m: nat)
    requires e.CleanStuck? && Ready(p, e)
    ensures Uses(p, Step(p, e), if Again(Step(p, e)) then 1 else 0, m)
  {
    var popped := p.(queued := p.queued - 1);
    FailureUses(popped, false, e.recorded, m);
    UsesFromMore(popped, p, Step(p, e), if Again(Step(p, e)) then 1 else 0, m);
  }

  lemma UsesFromMore(p: Place, more: Place, q: Place, n: int, m: nat)
    requires Uses(p, q, n, m) && more.job == p.job && Waits(p) <= Waits(more)
    ensures Uses(more, q, n, m)
  {
  }

  lemma MoveUses(p: Place, e: Event, m: nat)
    requires (e.StartJob? || e.Wake? || e.Drain? || e.Cancel?) && Ready(p, e)
    ensures Uses(p, Step(p, e), 0, m) && !Reenqueues(Step(p, e), e)
    ensures e.StartJob? ==> Waits(Step(p, e)) == Waits(p) - 1
  {
  }

  lemma DeletedWaits(p: Place, e: Event)
    requires Ready(p, e) && Deletes(p, e)
    ensures Step(p, e).job.None? && Waits(Step(p, e)) <= Waits(p)
  {
  }

  /** Every transaction that makes a job wait again, those that clean up after abandoned
      and stuck jobs included, uses up one unit of its budget; nothing else does, as long
      as the job is saved. A delayed put-back is one transaction here; CrashStarts.dfy has
      its ZADD apart. */
  lemma ReenqueueUsesBudget(p: Place, e: Event, m: nat)
    requires Ready(p, e) && !Creates(e) && WithinLimit(e, m)
    ensures Step(p, e).job.None? <==> Deletes(p, e)
    ensures !Deletes(p, e) ==> Uses(p, Step(p, e), if Reenqueues(Step(p, e), e) then 1 else 0, m)
  {
    if Deletes(p, e) { DeletedWaits(p, e); }
    else if e.Succeed? { SuccessUses(p, e, m); }
    else if e.ReturnRetry? { RetryUses(p, e, m); }
    else if e.FailJob? || e.Abandon? { FailJobUses(p, e, m); }
    else if e.CleanStuck? { CleanStuckUses(p, e, m); }
    else { MoveUses(p, e, m); }
  }

  /** Starts still possible: the budget, and one for each place the job waits in. */
  function Potential(p: Place, m: nat): nat {
    Waits(p) + if p.job.Some? then Budget(p.job.value, m) else 0
  }

  lemma PotentialSpent(p: Place, e: Event, m: nat)
    requires Ready(p, e) && !Creates(e) && WithinLimit(e, m)
    ensures Potential(Step(p, e), m) + (if e.StartJob? then 1 else 0) <= Potential(p, m)
  {
    if e.StartJob? { MoveUses(p, e, m); }
    else if Deletes(p, e) { DeletedWaits(p, e); }
    else { ReenqueueUsesBudget(p, e, m); }
  }

  predicate AllWithinLimit(es: seq<Event>, m: nat) {
    forall e :: e in es ==> WithinLimit(e, m)
  }

  /** The hashes the job is created with: more than one if it is deleted and enqueued
      anew. */
  function Creations(es: seq<Event>, k: JobId): seq<Job> {
    if es == [] then []
    else (if Creates(es[0]) && es[0].j == k then [es[0].job] else []) + Creations(es[1..], k)
  }

  /** One start, and one for each retry, returned Retry and repeat. */
  function Allowance(jobs: seq<Job>, m: nat): nat {
    if jobs == [] then 0
    else 1 + jobs[0].retriesLeft + m + jobs[0].repeatsLeft + Allowance(jobs[1..], m)
  }

  lemma CreationPotential(p: Place, e: Event, m: nat)
    requires Ready(p, e) && Creates(e)
    ensures Potential(Step(p, e), m) <= Potential(p, m) + 1 + e.job.retriesLeft + m + e.job.repeatsLeft
  {
  }

  lemma AllowanceFirst(e: Event, es: seq<Event>, k: JobId, m: nat)
    ensures Allowance(Creations([e] + es, k), m) == Allowance(Creations(es, k), m)
      + if Creates(e) && e.j == k then 1 + e.job.retriesLeft + m + e.job.repeatsLeft else 0
  {
    assert ([e] + es)[1..] == es;
    if Creates(e) && e.j == k {
      assert Creations([e] + es, k)[1..] == Creations(es, k);
    } else {
      assert [] + Creations(es, k) == Creations(es, k);
    }
  }

  lemma StartSpends(s: State, e: Event, k: JobId, m: nat)
    requires Enabled(s, e) && WithinLimit(e, m)
    ensures Potential(View(Apply(s, e), k), m) + (if e.StartJob? && Subject(s, e) == k then 1 else 0)
         <= Potential(View(s, k), m)
          + (if Creates(e) && e.j == k then 1 + e.job.retriesLeft + m + e.job.repeatsLeft else 0)
  {
    PlacesAreIndependent(s, e, k);
    if k == Subject(s, e) {
      if Creates(e) { CreationPotential(View(s, k), e, m); } else { PotentialSpent(View(s, k), e, m); }
    }
  }

  lemma {:induction false} StartsAreBounded(s: State, es: seq<Event>, k: JobId, m: nat)
    requires Possible(s, es) && AllWithinLimit(es, m)
    ensures Starts(s, es, k) <= Potential(View(s, k), m) + Allowance(Creations(es, k), m)
    decreases |es|
  {
    if es != [] {
      StartSpends(s, es[0], k, m);
      StartsAreBounded(Apply(s, es[0]), es[1..], k, m);
      assert es == [es[0]] + es[1..];
      AllowanceFirst(es[0], es[1..], k, m);
    }
  }

  /** Each time it is created a job may be started 1 + retries_left + m + repeats_left
      times, in terms of the values it is created with, and no more, in every run of whole
      transactions, clean-ups and cancellations. CrashStarts.dfy says what clients that die
      inside a delayed put-back add to this. */
  lemma BoundedLife(es: seq<Event>, k: JobId, m: nat)
    requires Possible(Empty, es) && AllWithinLimit(es, m)
    ensures Starts(Empty, es, k) <= Allowance(Creations(es, k), m)
  {
    StartsAreBounded(Empty, es, k, m);
  }

  // ---------- The bound is attained ----------

  /** A job whose retries and repeats all come back to the queue at once. */
  predicate Immediate(job: Job) {
    job.retryIntervals.None? && job.repeatIntervals == []
  }

  /** What the job does next to use up its counters one by one. */
  function NextUse(k: JobId, job: Job, m: nat): Event
    requires Budget(job, m) > 0
  {
    if job.retriesLeft > 0 then FailJob(k, false, true)
    else if job.retries < m then ReturnRetry(k, m, [])
    else Succeed(k, true)
  }

  lemma OneMoreStart(s: State, k: JobId, m: nat)
    requires s.queue == [k] && k in s.jobs && Immediate(s.jobs[k]) && Budget(s.jobs[k], m) > 0
    ensures Enabled(s, StartJob)
    ensures var s1 := Apply(s, StartJob);
      var e := NextUse(k, s.jobs[k], m);
      && WithinLimit(e, m) && Enabled(s1, e)
      && var s2 := Apply(s1, e);
         && s2.queue == [k] && k in s2.jobs && Immediate(s2.jobs[k])
         && Budget(s2.jobs[k], m) == Budget(s.jobs[k], m) - 1
  {
  }

  lemma {:induction false} UseUp(s: State, k: JobId, m: nat) returns (es: seq<Event>)
    requires s.queue == [k] && k in s.jobs && Immediate(s.jobs[k])
    ensures Possible(s, es) && AllWithinLimit(es, m)
    ensures Starts(s, es, k) == 1 + Budget(s.jobs[k], m)
    ensures Creations(es, k) == []
    decreases Budget(s.jobs[k], m)
  {
    if Budget(s.jobs[k], m) == 0 {
      es := [StartJob];
      assert es[1..] == [];
    } else {
      OneMoreStart(s, k, m);
      var s1, e := Apply(s, StartJob), NextUse(k, s.jobs[k], m);
      var rest := UseUp(Apply(s1, e), k, m);
      es := [StartJob, e] + rest;
      assert es[1..] == [e] + rest && es[1..][1..] == rest;
      assert Creations(es[1..], k) == Creations(rest, k) && Creations(es, k) == Creations(es[1..], k);
      assert Possible(s1, es[1..]) && Starts(s1, es[1..], k) == Starts(Apply(s1, e), rest, k);
    }
  }

  /** For every choice of counters some run starts the job exactly that often. */
  lemma BoundIsAttained(k: JobId, job: Job, m: nat)
    requires Fresh(job) && Immediate(job)
    ensures exists es ::
      (Possible(Empty, es) && AllWithinLimit(es, m) && Creations(es, k) == [job]
       && Starts(Empty, es, k) == 1 + job.retriesLeft + m + job.repeatsLeft)
  {
    var e := EnqueueNew(k, job, false);
    var rest := UseUp(Apply(Empty, e), k, m);
    var es := [e] + rest;
    assert es[1..] == rest;
    assert Possible(Empty, es) && Starts(Empty, es, k) == Starts(Apply(Empty, e), rest, k);
  }
}
