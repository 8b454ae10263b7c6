/** How long a job waits each time it is put back, over whole runs of Lifecycle.dfy: the
    intervals it was created with, in the order of Intervals.dfy. */
module LifecycleWaits {
  import opened Common
  import opened Lifecycle
  import opened LifecycleRuns
  import I = Intervals

  datatype Cause = Failing | Succeeding | Returning

  predicate Causes(e: Event, why: Cause) {
    match why
    case Failing => e.FailJob? || e.Abandon? || e.CleanStuck?
    case Succeeding => e.Succeed?
    case Returning => e.ReturnRetry?
  }

  /** The wait a job has before it: none on its queue, its delay in the scheduled registry. */
  function WaitBefore(p: Place): Option<nat> {
    if Is(p, Queued) then Some(0)
    else if Is(p, Scheduled) then p.scheduled
    else None
  }

  /** The waits the job is given in the run by failures, successes or returned Retries. */
  ghost function Waits(s: State, es: seq<Event>, k: JobId, why: Cause): seq<nat>
    requires Possible(s, es)
    decreases |es|
  {
    if es == [] then []
    else
      var t := Apply(s, es[0]);
      (if Causes(es[0], why) && Subject(s, es[0]) == k && WaitBefore(View(t, k)).Some?
         then [WaitBefore(View(t, k)).value] else [])
      + Waits(t, es[1..], k, why)
  }

  /** What t repeats, or m retries after failures, are to wait for. */
  function RepeatPlan(t: nat, intervals: seq<nat>): seq<nat> {
    if intervals == [] then I.Copies(t, 0) else Reverse(I.Padded(t, intervals))
  }

  function FailurePlan(m: nat, intervals: Option<seq<nat>>): seq<nat>
    requires intervals.Some? ==> intervals.value != []
  {
    match intervals
    case None => I.Copies(m, 0)
    case Some(xs) => I.RetryPlan(m, xs)
  }

  lemma RepeatPlanStep(t: nat, intervals: seq<nat>)
    requires t > 0
    ensures RepeatPlan(t, intervals)
         == [if intervals == [] then 0 else I.RepeatInterval(t - 1, intervals)] + RepeatPlan(t - 1, intervals)
  {
    if intervals == [] {
      I.CopiesStep(t, 0);
    } else {
      I.RepeatWaitsAreReversed(t, intervals);
      I.RepeatWaitsAreReversed(t - 1, intervals);
    }
  }

  lemma FailurePlanStep(m: nat, intervals: Option<seq<nat>>)
    requires m > 0 && (intervals.Some? ==> intervals.value != [])
    ensures FailurePlan(m, intervals) == [I.RetryInterval(m, intervals)] + FailurePlan(m - 1, intervals)
  {
    match intervals
    case None => I.CopiesStep(m, 0);
    case Some(xs) => I.PlanStep(m, xs);
  }

  // ---------- One event ----------

  /** The same job in another status. */
  predicate Same(a: Job, b: Job) {
    a.(status := Queued) == b.(status := Queued)
  }

  lemma WaitingHas(p: Place, job: Job, interval: nat)
    ensures var q := Waiting(p, job, interval);
      q.job.Some? && Same(q.job.value, job) && WaitBefore(q) == Some(interval)
  {
    assert Waiting(p, job, interval).job == Some(job.(status := if interval == 0 then Queued else Scheduled));
    OtherStatus(job, if interval == 0 then Queued else Scheduled);
  }

  lemma OtherStatus(job: Job, st: JobStatus)
    ensures Same(job.(status := st), job)
  {
  }

  lemma OverKeeps(q: Place)
    ensures Over(q).job == q.job && WaitBefore(Over(q)) == WaitBefore(q)
  {
  }

  lemma MoveKeeps(p: Place, e: Event)
    requires Ready(p, e) && (e.StartJob? || e.Wake? || e.Drain? || e.Requeue? || e.Cancel?)
    ensures Step(p, e).job.Some? && Same(Step(p, e).job.value, p.job.value)
  {
  }

  lemma SuccessChanges(p: Place, e: Event)
    requires Ready(p, e) && e.Succeed? && Step(p, e).job.Some?
    ensures var a, q := p.job.value, Step(p, e);
      if a.repeatsLeft == 0 then Same(q.job.value, a) && WaitBefore(q).None?
      else
        && Same(q.job.value, a.(repeatsLeft := a.repeatsLeft - 1))
        && WaitBefore(q) == Some(if a.repeatIntervals == [] then 0 else I.RepeatInterval(a.repeatsLeft - 1, a.repeatIntervals))
  {
    var a := p.job.value;
    OverKeeps(SuccessOf(p, a, e.kept));
    if a.repeatsLeft > 0 {
      var done := if e.kept then Stored(p, a, Finished).(finished := true) else p;
      WaitingHas(done, Repeated(a), RepeatAfter(a));
    }
  }

  /** What a failure leaves, before the execution is over. */
  lemma FailureOfChanges(p: Place, job: Job, stopped: bool, recorded: bool)
    requires SoundIntervals(job)
    ensures var q := FailureOf(p, job, stopped, recorded);
      && q.job.Some?
      && if stopped || job.retriesLeft == 0 then Same(q.job.value, job) && WaitBefore(q).None?
         else
           && Same(q.job.value, job.(retriesLeft := job.retriesLeft - 1))
           && WaitBefore(q) == Some(I.RetryInterval(job.retriesLeft, job.retryIntervals))
  {
    if !stopped && job.retriesLeft > 0 {
      WaitingHas(p, Retried(job), I.RetryInterval(job.retriesLeft, job.retryIntervals));
    }
  }

  /** The job has been put back with one retry less, or given up. */
  predicate PutBackOrGivenUp(a: Job, q: Place)
    requires SoundIntervals(a)
  {
    && q.job.Some?
    && if WaitBefore(q).None? then Same(q.job.value, a)
       else
         && a.retriesLeft > 0 && Same(q.job.value, a.(retriesLeft := a.retriesLeft - 1))
         && WaitBefore(q) == Some(I.RetryInterval(a.retriesLeft, a.retryIntervals))
  }

  lemma FailureChanges(p: Place, e: Event)
    requires Ready(p, e) && Causes(e, Failing)
    ensures PutBackOrGivenUp(p.job.value, Step(p, e))
  {
    var job := p.job.value;
    if e.CleanStuck? {
      FailureOfChanges(p.(queued := p.queued - 1), job, false, e.recorded);
    } else {
      var stopped, recorded := e.FailJob? && e.stopped, e.Abandon? || e.recorded;
      FailureOfChanges(p, job, stopped, recorded);
      OverKeeps(FailureOf(p, job, stopped, recorded));
    }
  }

  lemma ReturnChanges(p: Place, e: Event)
    requires Ready(p, e) && e.ReturnRetry?
    ensures var a, q := p.job.value, Step(p, e);
      && q.job.Some?
      && if a.retries > 0 && a.retries >= e.max then Same(q.job.value, a) && WaitBefore(q).None?
         else
           && Same(q.job.value, a.(retries := a.retries + 1))
           && WaitBefore(q) == Some(I.ReturnedInterval(a.retries, e.intervals))
  {
    var a := p.job.value;
    var next, wait := a.(retries := a.retries + 1), I.ReturnedInterval(a.retries, e.intervals);
    WaitingHas(p, next, wait);
    OverKeeps(Waiting(p, next, wait));
  }

  /** Which counter an event touches, and no other. */
  lemma CountersKept(p: Place, e: Event)
    requires Ready(p, e) && !Creates(e) && Step(p, e).job.Some?
    ensures var a, b := p.job.value, Step(p, e).job.value;
      && b.repeatIntervals == a.repeatIntervals && b.retryIntervals == a.retryIntervals
      && (!e.Succeed? ==> b.repeatsLeft == a.repeatsLeft)
      && (!Causes(e, Failing) ==> b.retriesLeft == a.retriesLeft)
      && (!e.ReturnRetry? ==> b.retries == a.retries)
  {
    if e.Succeed? { SuccessChanges(p, e); }
    else if e.ReturnRetry? { ReturnChanges(p, e); }
    else if Causes(e, Failing) { FailureChanges(p, e); }
    else { MoveKeeps(p, e); }
  }

  /** A deleted job stays away unless it is created anew. */
  lemma {:induction false} GoneHasNoWaits(s: State, es: seq<Event>, k: JobId, why: Cause)
    requires Possible(s, es) && k !in s.jobs && Creations(es, k) == []
    ensures Waits(s, es, k, why) == []
    decreases |es|
  {
    if es != [] {
      PlacesAreIndependent(s, es[0], k);
      assert View(s, k).job.None?;
      GoneHasNoWaits(Apply(s, es[0]), es[1..], k, why);
    }
  }

  /** What a run of one more event adds. */
  ghost predicate Grows(s: State, e: Event, k: JobId, why: Cause, wait: Option<nat>)
    requires Enabled(s, e)
  {
    wait == if Causes(e, why) && Subject(s, e) == k then WaitBefore(View(Apply(s, e), k)) else None
  }

  lemma WaitsGrow(s: State, es: seq<Event>, k: JobId, why: Cause, wait: Option<nat>)
    requires Possible(s, es) && es != [] && Grows(s, es[0], k, why, wait)
    ensures Waits(s, es, k, why) == (if wait.Some? then [wait.value] else []) + Waits(Apply(s, es[0]), es[1..], k, why)
  {
  }

  /** The event as the job sees it. */
  ghost predicate Seen(s: State, e: Event, k: JobId)
    requires Enabled(s, e) && k in s.jobs
  {
    if k == Subject(s, e) then
      && Ready(View(s, k), e) && !Creates(e) && View(s, k).job == Some(s.jobs[k])
      && View(Apply(s, e), k) == Step(View(s, k), e)
    else k in Apply(s, e).jobs && Apply(s, e).jobs[k] == s.jobs[k]
  }

  lemma StepSeen(s: State, e: Event, k: JobId)
    requires Enabled(s, e) && k in s.jobs
    ensures Seen(s, e, k)
  {
    PlacesAreIndependent(s, e, k);
    assert View(s, k).job == Some(s.jobs[k]);
    if k != Subject(s, e) { assert View(Apply(s, e), k).job == Some(s.jobs[k]); }
  }

  /** One step of the plan for repeats: what is added, and what is left. */
  lemma RepeatStep(s: State, e: Event, k: JobId) returns (wait: Option<nat>)
    requires Enabled(s, e) && k in s.jobs && k in Apply(s, e).jobs
    ensures Grows(s, e, k, Succeeding, wait)
    ensures var a, b := s.jobs[k], Apply(s, e).jobs[k];
      && b.repeatIntervals == a.repeatIntervals
      && if wait.None? then b.repeatsLeft == a.repeatsLeft
         else
           && a.repeatsLeft > 0 && b.repeatsLeft == a.repeatsLeft - 1
           && RepeatPlan(a.repeatsLeft, a.repeatIntervals) == [wait.value] + RepeatPlan(b.repeatsLeft, b.repeatIntervals)
  {
    StepSeen(s, e, k);
    wait := if Causes(e, Succeeding) && Subject(s, e) == k then WaitBefore(View(Apply(s, e), k)) else None;
    if k == Subject(s, e) {
      assert View(Apply(s, e), k).job == Some(Apply(s, e).jobs[k]);
      CountersKept(View(s, k), e);
      if e.Succeed? {
        SuccessChanges(View(s, k), e);
        if s.jobs[k].repeatsLeft > 0 { RepeatPlanStep(s.jobs[k].repeatsLeft, s.jobs[k].repeatIntervals); }
      }
    }
  }

  lemma RetryStep(s: State, e: Event, k: JobId) returns (wait: Option<nat>)
    requires Enabled(s, e) && k in s.jobs && k in Apply(s, e).jobs && SoundIntervals(s.jobs[k])
    ensures Grows(s, e, k, Failing, wait)
    ensures var a, b := s.jobs[k], Apply(s, e).jobs[k];
      && b.retryIntervals == a.retryIntervals
      && if wait.None? then b.retriesLeft == a.retriesLeft
         else
           && a.retriesLeft > 0 && b.retriesLeft == a.retriesLeft - 1
           && FailurePlan(a.retriesLeft, a.retryIntervals) == [wait.value] + FailurePlan(b.retriesLeft, b.retryIntervals)
  {
    StepSeen(s, e, k);
    wait := if Causes(e, Failing) && Subject(s, e) == k then WaitBefore(View(Apply(s, e), k)) else None;
    if k == Subject(s, e) {
      assert View(Apply(s, e), k).job == Some(Apply(s, e).jobs[k]);
      CountersKept(View(s, k), e);
      if Causes(e, Failing) {
        FailureChanges(View(s, k), e);
        if s.jobs[k].retriesLeft > 0 { FailurePlanStep(s.jobs[k].retriesLeft, s.jobs[k].retryIntervals); }
      }
    }
  }

  lemma ReturnStep(s: State, e: Event, k: JobId) returns (wait: Option<nat>)
    requires Enabled(s, e) && k in s.jobs && k in Apply(s, e).jobs
    ensures Grows(s, e, k, Returning, wait)
    ensures var a, b := s.jobs[k].retries, Apply(s, e).jobs[k].retries;
      if wait.None? then b == a
      else b == a + 1 && e.ReturnRetry? && e.j == k && wait.value == I.ReturnedInterval(a, e.intervals)
  {
    StepSeen(s, e, k);
    wait := if Causes(e, Returning) && Subject(s, e) == k then WaitBefore(View(Apply(s, e), k)) else None;
    if k == Subject(s, e) {
      assert View(Apply(s, e), k).job == Some(Apply(s, e).jobs[k]);
      CountersKept(View(s, k), e);
      if e.ReturnRetry? { ReturnChanges(View(s, k), e); }
    }
  }

  /** A run in which the job is deleted first. */
  lemma DeletedFirst(s: State, es: seq<Event>, k: JobId, why: Cause)
    requires Possible(s, es) && es != [] && Creations(es, k) == [] && k in s.jobs && k !in Apply(s, es[0]).jobs
    ensures Waits(s, es, k, why) == [] && k !in Final(s, es).jobs
  {
    assert View(Apply(s, es[0]), k).job.None?;
    GoneHasNoWaits(Apply(s, es[0]), es[1..], k, why);
    StaysGone(Apply(s, es[0]), es[1..], k);
  }

  lemma {:induction false} StaysGone(s: State, es: seq<Event>, k: JobId)
    requires Possible(s, es) && k !in s.jobs && Creations(es, k) == []
    ensures k !in Final(s, es).jobs
    decreases |es|
  {
    if es != [] {
      PlacesAreIndependent(s, es[0], k);
      assert View(s, k).job.None?;
      assert View(Apply(s, es[0]), k).job.None?;
      StaysGone(Apply(s, es[0]), es[1..], k);
    }
  }

  // ---------- Whole runs ----------

  /** Each time the job succeeds and is repeated it waits for the next interval of its
      list, padded with its last entry or cut to the number of repeats, from the back. */
  lemma {:induction false} RepeatsFollowThePlan(s: State, es: seq<Event>, k: JobId)
    requires Possible(s, es) && k in s.jobs && Creations(es, k) == []
    ensures Waits(s, es, k, Succeeding) <= RepeatPlan(s.jobs[k].repeatsLeft, s.jobs[k].repeatIntervals)
    ensures k in Final(s, es).jobs ==>
      |Waits(s, es, k, Succeeding)| + Final(s, es).jobs[k].repeatsLeft == s.jobs[k].repeatsLeft
    decreases |es|
  {
    if es != [] {
      if k in Apply(s, es[0]).jobs {
        var wait := RepeatStep(s, es[0], k);
        WaitsGrow(s, es, k, Succeeding, wait);
        RepeatsFollowThePlan(Apply(s, es[0]), es[1..], k);
      } else {
        DeletedFirst(s, es, k, Succeeding);
      }
    }
  }

  /** Each time it fails, is abandoned or is found stuck, and is tried again, it waits for
      the next of its retry intervals. */
  lemma {:induction false} RetriesFollowThePlan(s: State, es: seq<Event>, k: JobId)
    requires Possible(s, es) && k in s.jobs && Creations(es, k) == [] && SoundIntervals(s.jobs[k])
    ensures Waits(s, es, k, Failing) <= FailurePlan(s.jobs[k].retriesLeft, s.jobs[k].retryIntervals)
    ensures k in Final(s, es).jobs ==>
      |Waits(s, es, k, Failing)| + Final(s, es).jobs[k].retriesLeft == s.jobs[k].retriesLeft
    decreases |es|
  {
    if es != [] {
      if k in Apply(s, es[0]).jobs {
        var wait := RetryStep(s, es[0], k);
        WaitsGrow(s, es, k, Failing, wait);
        RetriesFollowThePlan(Apply(s, es[0]), es[1..], k);
      } else {
        DeletedFirst(s, es, k, Failing);
      }
    }
  }

  predicate AlwaysReturns(es: seq<Event>, k: JobId, intervals: seq<nat>) {
    es == []
    || ((es[0].ReturnRetry? && es[0].j == k ==> es[0].intervals == intervals) && AlwaysReturns(es[1..], k, intervals))
  }

  /** The n-th entry, or the last one. */
  function Entry(xs: seq<nat>, n: nat): nat {
    if xs == [] then 0 else if n < |xs| then xs[n] else xs[|xs| - 1]
  }

  /** n entries from the r-th on. */
  function ReturnPlan(r: nat, n: nat, xs: seq<nat>): (plan: seq<nat>)
    ensures |plan| == n && forall i :: 0 <= i < n ==> plan[i] == Entry(xs, r + i)
    decreases n
  {
    if n == 0 then [] else [Entry(xs, r)] + ReturnPlan(r + 1, n - 1, xs)
  }

  lemma ReturnPlanStep(r: nat, rest: seq<nat>, xs: seq<nat>)
    requires rest == ReturnPlan(r + 1, |rest|, xs)
    ensures [I.ReturnedInterval(r, xs)] + rest == ReturnPlan(r, |rest| + 1, xs)
  {
  }

  /** Each time it returns the same Retry and is tried again, it waits for the next entry of
      that list, and for the last one from then on. */
  lemma {:induction false} ReturnsFollowTheList(s: State, es: seq<Event>, k: JobId, xs: seq<nat>)
    requires Possible(s, es) && k in s.jobs && Creations(es, k) == [] && AlwaysReturns(es, k, xs)
    ensures var waits := Waits(s, es, k, Returning); waits == ReturnPlan(s.jobs[k].retries, |waits|, xs)
    decreases |es|
  {
    if es != [] {
      if k in Apply(s, es[0]).jobs {
        var wait := ReturnStep(s, es[0], k);
        WaitsGrow(s, es, k, Returning, wait);
        ReturnsFollowTheList(Apply(s, es[0]), es[1..], k, xs);
        if wait.Some? { ReturnPlanStep(s.jobs[k].retries, Waits(Apply(s, es[0]), es[1..], k, Returning), xs); }
      } else {
        DeletedFirst(s, es, k, Returning);
      }
    }
  }
}
