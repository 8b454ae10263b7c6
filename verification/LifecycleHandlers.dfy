/** The handlers of one worker and the clean-up of the started registry as they
    run undisturbed (rq/worker/base.py, rq/job.py, rq/registry.py), each proved to
    carry out exactly its transaction of Lifecycle.dfy. */
module LifecycleHandlers {
  import opened Common
  import opened Lifecycle
  import I = Intervals

  /** The job waits for the time given: on its queue if that is none, and otherwise in the
      scheduled registry. */
  ghost predicate WaitsFor(s: State, j: JobId, wait: nat) {
    && j in s.jobs
    && if wait == 0 then s.jobs[j].status == Queued && j in s.queue
       else s.jobs[j].status == Scheduled && j in s.scheduled && s.scheduled[j] == wait
  }

  class Worker {
    var redis: State
    var stoppedJobId: Option<JobId>
    var defaultHandler: bool

    constructor (s: State, defaultHandler: bool)
      ensures redis == s && stoppedJobId.None? && this.defaultHandler == defaultHandler
    {
      redis := s;
      stoppedJobId := None;
      this.defaultHandler := defaultHandler;
    }

    method EnqueueOrSchedule(j: JobId, job: Job, interval: nat, front: bool)
      modifies this`redis
      ensures redis == Again(old(redis), j, job, interval, front)
    {
      if interval != 0 {
        redis := redis.(jobs := redis.jobs[j := job.(status := Scheduled)], scheduled := redis.scheduled[j := interval]);
      } else {
        redis := redis.(jobs := redis.jobs[j := job.(status := Queued)]);
        redis := redis.(queue := if front then [j] + redis.queue else redis.queue + [j]);
      }
    }

    /** `Job.retry`. */
    method Retry(j: JobId, job: Job)
      requires SoundIntervals(job) && job.retriesLeft > 0
      modifies this`redis
      ensures redis == AfterFailure(old(redis), j, job, false, true)
    {
      var interval := I.RetryInterval(job.retriesLeft, job.retryIntervals);
      EnqueueOrSchedule(j, job.(retriesLeft := job.retriesLeft - 1), interval, job.retryAtFront);
    }

    method CleanupExecution(j: JobId)
      modifies this`redis
      ensures redis == EndExecution(old(redis), j)
    {
      redis := redis.(started := redis.started - {j});
      redis := redis.(executing := redis.executing - {j});
    }

    /** `handle_job_failure` of the job being executed. */
    method HandleJobFailure(j: JobId)
      requires Enabled(redis, FailJob(j, stoppedJobId == Some(j), defaultHandler))
      modifies this`redis, this`stoppedJobId
      ensures redis == Apply(old(redis), FailJob(j, old(stoppedJobId) == Some(j), defaultHandler))
      ensures stoppedJobId == if old(stoppedJobId) == Some(j) then None else old(stoppedJobId)
      ensures var stopped, m := old(stoppedJobId) == Some(j), old(redis).jobs[j].retriesLeft;
        && (stopped || m == 0 ==>
              && j in redis.jobs && redis.jobs[j].status == (if stopped then Stopped else Failed)
              && redis.jobs[j].retriesLeft == m && (defaultHandler ==> j in redis.failed))
        && (!stopped && m > 0 ==>
              && WaitsFor(redis, j, match old(redis).jobs[j].retryIntervals
                                    case None => 0
                                    case Some(xs) => I.RetryPlan(m, xs)[0])
              && redis.jobs[j].retriesLeft == m - 1)
    {
      var job := redis.jobs[j];
      if job.retriesLeft > 0 && job.retryIntervals.Some? { I.PlanStep(job.retriesLeft, job.retryIntervals.value); }
      var jobIsStopped := stoppedJobId == Some(j);
      var retry := job.retriesLeft > 0 && !jobIsStopped;
      if jobIsStopped {
        redis := redis.(jobs := redis.jobs[j := job.(status := Stopped)]);
        stoppedJobId := None;
      } else if !retry {
        redis := redis.(jobs := redis.jobs[j := job.(status := Failed)]);
      }
      CleanupExecution(j);
      if defaultHandler && !retry {
        redis := redis.(failed := redis.failed + {j});
      }
      if retry {
        Retry(j, job);
      }
    }

    /** `handle_job_retry`. */
    method HandleJobRetry(j: JobId, max: nat, intervals: seq<nat>)
      requires Enabled(redis, ReturnRetry(j, max, intervals))
      modifies this`redis
      ensures redis == Apply(old(redis), ReturnRetry(j, max, intervals))
      ensures var t := old(redis).jobs[j].retries;
        if t > 0 && t >= max then j in redis.jobs && redis.jobs[j].status == Failed && j in redis.failed
        else
          && WaitsFor(redis, j, if intervals == [] then 0 else I.Padded(t + 1, intervals)[t])
          && redis.jobs[j].retries == t + 1
    {
      if intervals != [] { I.PaddedSnoc(redis.jobs[j].retries, intervals); }
      var job := redis.jobs[j];
      if job.retries > 0 && job.retries >= max {
        redis := redis.(jobs := redis.jobs[j := job.(status := Failed)]);
        CleanupExecution(j);
        redis := redis.(failed := redis.failed + {j});
        return;
      }
      EnqueueOrSchedule(j, job.(retries := job.retries + 1), I.ReturnedInterval(job.retries, intervals), false);
      CleanupExecution(j);
    }

    /** `delete`, on the status Redis shows, without removal from the queue. */
    method Delete(j: JobId)
      requires j in redis.jobs
      modifies this`redis
      ensures redis == Deleted(old(redis), j, old(redis).jobs[j].status)
    {
      RemoveFromRegistry(j);
      redis := redis.(jobs := redis.jobs - {j});
    }

    /** The second half of `_remove_from_registries`. */
    method RemoveFromRegistry(j: JobId)
      requires j in redis.jobs
      modifies this`redis
      ensures redis == Unregistered(old(redis), j, old(redis).jobs[j].status).(queue := old(redis).queue)
    {
      var st := redis.jobs[j].status;
      if st == Finished {
        redis := redis.(finished := redis.finished - {j});
      } else if st == Deferred {
        redis := redis.(deferred := redis.deferred - {j});
      } else if st == Started {
        redis := redis.(started := redis.started - {j});
      } else if st == Scheduled {
        redis := redis.(scheduled := redis.scheduled - {j});
      } else if st == Failed || st == Stopped {
        redis := redis.(failed := redis.failed - {j});
      } else if st == Canceled {
        redis := redis.(canceled := redis.canceled - {j});
      }
    }

    /** `handle_job_success`, for a job whose dependents are empty; `kept` says that its
        result_ttl is not 0. */
    method HandleJobSuccess(j: JobId, kept: bool)
      requires Enabled(redis, Succeed(j, kept))
      modifies this`redis
      ensures redis == Apply(old(redis), Succeed(j, kept))
      ensures var t, xs := old(redis).jobs[j].repeatsLeft, old(redis).jobs[j].repeatIntervals;
        && (t > 0 ==>
              && WaitsFor(redis, j, if xs == [] then 0 else I.Padded(t, xs)[t - 1])
              && redis.jobs[j].repeatsLeft == t - 1 && redis.jobs[j].repeatIntervals == xs)
        && (t == 0 && kept ==> j in redis.jobs && redis.jobs[j].status == Finished)
        && (t == 0 && !kept ==> j !in redis.jobs)
        && (kept ==> j in redis.finished)
    {
      var job := redis.jobs[j];
      if job.repeatsLeft > 0 && job.repeatIntervals != [] { I.RepeatIntervalIsLast(job.repeatsLeft, job.repeatIntervals); }
      if kept {
        redis := redis.(jobs := redis.jobs[j := job.(status := Finished)], finished := redis.finished + {j});
      }
      if job.repeatsLeft > 0 {
        var interval := 0;
        if job.repeatIntervals != [] {
          interval := I.RepeatInterval(job.repeatsLeft - 1, job.repeatIntervals);
        }
        EnqueueOrSchedule(j, job.(repeatsLeft := job.repeatsLeft - 1), interval, false);
      } else if !kept {
        Delete(j);
      }
      CleanupExecution(j);
    }

    /** `StartedJobRegistry.cleanup` on the jobs of the expired entries. Hashes are fetched
        as they were before the loop; everything the loop collects and the final
        ZREMRANGEBYSCORE run as one transaction. For distinct jobs that is the same as
        abandoning one after the other. */
    method CleanupStarted(ids: seq<JobId>)
      requires Abandonable(redis, ids)
      modifies this`redis
      ensures redis == EndAll(Collected(old(redis).jobs, old(redis), ids), ToSet(ids))
      ensures NoDup(ids) ==> redis == AllAbandoned(old(redis), ids)
    {
      var pipe := redis;
      var i := 0;
      while i < |ids|
        invariant i <= |ids| && redis == old(redis)
        invariant Collected(redis.jobs, pipe, ids[i..]) == Collected(redis.jobs, redis, ids)
      {
        var j := ids[i];
        assert ids[i..][0] == j && ids[i..][1..] == ids[i + 1..];
        if j in redis.jobs {
          var job := redis.jobs[j];
          if job.retriesLeft > 0 {
            var interval := I.RetryInterval(job.retriesLeft, job.retryIntervals);
            pipe := Again(pipe, j, job.(retriesLeft := job.retriesLeft - 1), interval, job.retryAtFront);
          } else {
            pipe := ToFailed(pipe, j, job, Failed, true);
          }
        }
        i := i + 1;
      }
      assert ids[i..] == [];
      if NoDup(ids) { CollectedIsAbandoned(redis, ids); }
      redis := EndAll(pipe, ToSet(ids));
    }

    /** `Job.cancel` without its dependents: the registry left is the one of the status
        Redis still shows. */
    method Cancel(j: JobId) returns (done: bool)
      requires j in redis.jobs
      modifies this`redis
      ensures done <==> old(redis).jobs[j].status != Canceled
      ensures redis == if done then Apply(old(redis), Event.Cancel(j)) else old(redis)
    {
      var st := redis.jobs[j].status;
      if st == Canceled { return false; }
      redis := redis.(queue := RemoveFirst(redis.queue, j));
      RemoveFromRegistry(j);
      redis := redis.(jobs := redis.jobs[j := redis.jobs[j].(status := Canceled)], canceled := redis.canceled + {j});
      return true;
    }
  }

  /** Expired entries the clean-up can process. */
  ghost predicate Abandonable(s: State, ids: seq<JobId>) {
    forall j :: j in ids ==> j in s.started && (j in s.jobs ==> SoundIntervals(s.jobs[j]))
  }

  /** One Abandon transaction after another; an entry without a job is only removed. */
  function AllAbandoned(s: State, ids: seq<JobId>): State
    decreases |ids|
  {
    if ids == [] then s
    else if Enabled(s, Abandon(ids[0])) then AllAbandoned(Apply(s, Abandon(ids[0])), ids[1..])
    else AllAbandoned(EndExecution(s, ids[0]), ids[1..])
  }

  /** What the loop puts into the pipeline, each job going by its hash in `jobs`. */
  function Collected(jobs: map<JobId, Job>, pipe: State, ids: seq<JobId>): State
    requires forall j :: j in ids && j in jobs ==> SoundIntervals(jobs[j])
    decreases |ids|
  {
    if ids == [] then pipe
    else
      var j := ids[0];
      Collected(jobs, if j in jobs then AfterFailure(pipe, j, jobs[j], false, true) else pipe, ids[1..])
  }

  function EndAll(s: State, js: set<JobId>): State {
    s.(started := s.started - js, executing := s.executing - js)
  }

  /** The jobs still to come have not been changed by the pipeline. */
  ghost predicate Untouched(jobs: map<JobId, Job>, t: State, ids: seq<JobId>) {
    forall j :: j in ids ==>
      (j in t.jobs <==> j in jobs) && (j in jobs ==> t.jobs[j] == jobs[j] && SoundIntervals(jobs[j])) && j in t.started
  }

  lemma {:induction false} CollectedStepwise(jobs: map<JobId, Job>, pipe: State, ids: seq<JobId>, ended: set<JobId>)
    requires NoDup(ids) && Untouched(jobs, pipe, ids) && forall j :: j in ids ==> j !in ended
    ensures EndAll(Collected(jobs, pipe, ids), ended + ToSet(ids)) == AllAbandoned(EndAll(pipe, ended), ids)
    decreases |ids|
  {
    if ids == [] {
      assert ended + ToSet(ids) == ended;
    } else {
      var j := ids[0];
      NoDupSplit(ids, 0);
      assert ended + ToSet(ids) == (ended + {j}) + ToSet(ids[1..]);
      if j in jobs {
        AbandonCommutes(pipe, j, ended);
        CollectedStepwise(jobs, AfterFailure(pipe, j, jobs[j], false, true), ids[1..], ended + {j});
      } else {
        EndOneMore(pipe, j, ended);
        CollectedStepwise(jobs, pipe, ids[1..], ended + {j});
      }
    }
  }

  lemma CollectedIsAbandoned(s: State, ids: seq<JobId>)
    requires NoDup(ids) && Abandonable(s, ids)
    ensures EndAll(Collected(s.jobs, s, ids), ToSet(ids)) == AllAbandoned(s, ids)
  {
    EndNobody(s);
    CollectedStepwise(s.jobs, s, ids, {});
    assert {} + ToSet(ids) == ToSet(ids);
  }

  /** A job with two expired entries and a retry left that comes at once is put on the
      queue twice, at the price of one retry. */
  lemma TwoEntriesPushTwice(s: State, j: JobId)
    requires j in s.jobs && SoundIntervals(s.jobs[j]) && s.jobs[j].retriesLeft > 0
    requires I.RetryInterval(s.jobs[j].retriesLeft, s.jobs[j].retryIntervals) == 0
    ensures var t := EndAll(Collected(s.jobs, s, [j, j]), ToSet([j, j]));
      && multiset(t.queue)[j] == multiset(s.queue)[j] + 2
      && j in t.jobs && t.jobs[j].retriesLeft == s.jobs[j].retriesLeft - 1
  {
    var job := s.jobs[j];
    var t1 := AfterFailure(s, j, job, false, true);
    var t2 := AfterFailure(t1, j, job, false, true);
    assert [j, j][1..] == [j] && [j][1..] == [];
    assert Collected(s.jobs, s, [j, j]) == Collected(s.jobs, t1, [j]) == Collected(s.jobs, t2, []) == t2;
    PushCount(s.queue, j, job.retryAtFront, j);
    PushCount(t1.queue, j, job.retryAtFront, j);
  }

  lemma EndNobody(s: State)
    ensures EndAll(s, {}) == s && EndAll(s, ToSet([])) == s
  {
    assert s.started - {} == s.started && s.executing - {} == s.executing;
    assert ToSet<JobId>([]) == {};
  }

  lemma EndOneMore(s: State, j: JobId, js: set<JobId>)
    ensures EndExecution(EndAll(s, js), j) == EndAll(s, js + {j})
  {
    assert s.started - js - {j} == s.started - (js + {j});
    assert s.executing - js - {j} == s.executing - (js + {j});
  }

  lemma AbandonCommutes(s: State, j: JobId, js: set<JobId>)
    requires j in s.jobs && j in s.started && j !in js && SoundIntervals(s.jobs[j])
    ensures Enabled(EndAll(s, js), Abandon(j))
    ensures Apply(EndAll(s, js), Abandon(j)) == EndAll(AfterFailure(s, j, s.jobs[j], false, true), js + {j})
  {
    EndOneMore(AfterFailure(s, j, s.jobs[j], false, true), j, js);
  }
}
