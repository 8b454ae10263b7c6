/** The cron scheduler's loop (rq/cron.py) in discrete time: each iteration reads the
    clock once, work takes no time, and a sleep lasts exactly as long as asked. */
module Cron {
  import opened Common

  /** Clock ticks per second; datetimes have microseconds. */
  const SECOND := 1_000_000
  const MAX_SLEEP := 60 * SECOND

  /** A job runs at an interval (in ticks) or by a cron expression, seen only as the
      function from a time to the next matching one. */
  datatype Spec = Every(interval: int) | Matching(next: int -> int)

  ghost predicate Sound(spec: Spec) {
    match spec
    case Every(interval) => interval > 0
    case Matching(next) => forall t :: next(t) > t
  }

  datatype Job = Job(spec: Spec, latest: Option<int>, nextTime: Option<int>)

  function Successor(spec: Spec, t: int): int {
    match spec
    case Every(interval) => t + interval
    case Matching(next) => next(t)
  }

  /** `should_run`. */
  predicate ShouldRun(j: Job, now: int) {
    (j.latest.None? && j.spec.Every?) || (j.nextTime.Some? && now >= j.nextTime.value)
  }

  /** `set_enqueue_time`. */
  function Enqueued(j: Job, time: int): Job {
    Job(j.spec, Some(time), Some(Successor(j.spec, time)))
  }

  function Turn(j: Job, now: int): Job {
    if ShouldRun(j, now) then Enqueued(j, now) else j
  }

  function Turns(jobs: seq<Job>, now: int): (r: seq<Job>) {
    seq(|jobs|, i requires 0 <= i < |jobs| => Turn(jobs[i], now))
  }

  /** As registered: interval jobs have no next time yet, cron jobs the one after that
      moment. */
  function Registered(spec: Spec, at: int): Job {
    Job(spec, None, if spec.Every? then None else Some(spec.next(at)))
  }

  // ---------- The sleep ----------

  /** The earliest of the next times. */
  function Closest(jobs: seq<Job>): Option<int> {
    if jobs == [] then None
    else
      var rest := Closest(jobs[..|jobs| - 1]);
      match jobs[|jobs| - 1].nextTime
      case None => rest
      case Some(t) => if rest.Some? && rest.value <= t then rest else Some(t)
  }

  function Sleep(jobs: seq<Job>, now: int): int {
    match Closest(jobs)
    case None => MAX_SLEEP
    case Some(t) => if t - now <= 0 then 0 else if t - now < MAX_SLEEP then t - now else MAX_SLEEP
  }

  lemma {:induction false} ClosestIs(jobs: seq<Job>)
    ensures forall i :: 0 <= i < |jobs| && jobs[i].nextTime.Some? ==>
      Closest(jobs).Some? && Closest(jobs).value <= jobs[i].nextTime.value
    ensures Closest(jobs).Some? ==>
      exists i :: 0 <= i < |jobs| && jobs[i].nextTime == Closest(jobs)
  {
    if jobs != [] {
      var n := |jobs| - 1;
      ClosestIs(jobs[..n]);
      if Closest(jobs[..n]).Some? {
        var k :| 0 <= k < n && jobs[..n][k].nextTime == Closest(jobs[..n]);
        assert jobs[k].nextTime == Closest(jobs[..n]);
      }
      forall i | 0 <= i < |jobs| && jobs[i].nextTime.Some?
        ensures Closest(jobs).Some? && Closest(jobs).value <= jobs[i].nextTime.value
      {
        if i < n { assert jobs[i] == jobs[..n][i]; }
      }
    }
  }

  /** Never past a next time that is still to come, never longer than 60 seconds, and
      otherwise as long as possible. */
  lemma SleepIs(jobs: seq<Job>, now: int, i: nat)
    requires i < |jobs| && jobs[i].nextTime.Some?
    ensures 0 <= Sleep(jobs, now) <= 60_000_000 // 60 seconds
    ensures jobs[i].nextTime.value >= now ==> now + Sleep(jobs, now) <= jobs[i].nextTime.value
    ensures Sleep(jobs, now) < 60_000_000 ==>
      exists k :: 0 <= k < |jobs| && jobs[k].nextTime.Some? && jobs[k].nextTime.value <= now + Sleep(jobs, now)
    ensures Sleep(jobs, now) == 0 <==> exists k :: 0 <= k < |jobs| && jobs[k].nextTime.Some? && jobs[k].nextTime.value <= now
  {
    ClosestIs(jobs);
  }

  // ---------- The loop ----------

  datatype Moment = Moment(time: int, jobs: seq<Job>)

  /** One iteration: every due job is enqueued, then the sleep. */
  function Next(m: Moment): Moment {
    var jobs := Turns(m.jobs, m.time);
    Moment(m.time + Sleep(jobs, m.time), jobs)
  }

  /** The start of iteration `n`. */
  function After(m: Moment, n: nat): Moment
    decreases n
  {
    if n == 0 then m else After(Next(m), n - 1)
  }

  /** When job `i` is enqueued during the first `n` iterations. */
  function EnqueueTimes(m: Moment, i: nat, n: nat): seq<int>
    requires i < |m.jobs|
    decreases n
  {
    if n == 0 then []
    else (if ShouldRun(m.jobs[i], m.time) then [m.time] else []) + EnqueueTimes(Next(m), i, n - 1)
  }

  ghost predicate AllSound(m: Moment) {
    forall i :: 0 <= i < |m.jobs| ==>
      Sound(m.jobs[i].spec) && (m.jobs[i].nextTime.None? ==> m.jobs[i].spec.Every? && m.jobs[i].latest.None?)
  }

  /** The time a job is due from the moment on: its next time, or at once if it has
      none or is overdue. */
  function Upcoming(m: Moment, i: nat): int
    requires i < |m.jobs|
  {
    if ShouldRun(m.jobs[i], m.time) || m.jobs[i].nextTime.None? then m.time else m.jobs[i].nextTime.value
  }

  lemma TurnedIsAhead(m: Moment, i: nat)
    requires AllSound(m) && i < |m.jobs|
    ensures var j := Turns(m.jobs, m.time)[i]; j.nextTime.Some? && j.nextTime.value > m.time
  {
    assert Sound(m.jobs[i].spec);
  }

  /** Time moves on, but never past a job's time; a job enqueued now is next due at its
      successor time, and the others stay due when they were. */
  lemma OneIteration(m: Moment, i: nat)
    requires AllSound(m) && i < |m.jobs|
    ensures AllSound(Next(m)) && |Next(m).jobs| == |m.jobs| && Next(m).jobs[i].spec == m.jobs[i].spec
    ensures ShouldRun(m.jobs[i], m.time) <==> Upcoming(m, i) == m.time
    ensures m.time < Next(m).time <= Upcoming(Next(m), i)
    ensures Upcoming(Next(m), i)
         == if ShouldRun(m.jobs[i], m.time) then Successor(m.jobs[i].spec, m.time) else Upcoming(m, i)
  {
    var jobs := Turns(m.jobs, m.time);
    forall k | 0 <= k < |jobs| ensures jobs[k].nextTime.Some? && jobs[k].nextTime.value > m.time && Sound(jobs[k].spec) {
      TurnedIsAhead(m, k);
      assert Sound(m.jobs[k].spec);
    }
    SleepIs(jobs, m.time, i);
  }

  /** The k-th time of a job that is first due at `first`. */
  function Grid(spec: Spec, first: int, k: nat): int
    decreases k
  {
    if k == 0 then first else Grid(spec, Successor(spec, first), k - 1)
  }

  /** A job is enqueued exactly at its times, in order and without a gap: never before
      the next one, and never late. */
  lemma {:induction false} EnqueuedOnTheGrid(m: Moment, i: nat, n: nat, k: nat)
    requires AllSound(m) && i < |m.jobs| && k < |EnqueueTimes(m, i, n)|
    ensures EnqueueTimes(m, i, n)[k] == Grid(m.jobs[i].spec, Upcoming(m, i), k)
    decreases n
  {
    OneIteration(m, i);
    if ShouldRun(m.jobs[i], m.time) {
      if k > 0 { EnqueuedOnTheGrid(Next(m), i, n - 1, k - 1); }
    } else {
      EnqueuedOnTheGrid(Next(m), i, n - 1, k);
    }
  }

  /** Every time on the grid is reached: the clock never stands still. */
  lemma {:induction false} EveryTimeIsReached(m: Moment, i: nat, k: nat) returns (n: nat)
    requires AllSound(m) && i < |m.jobs|
    ensures k < |EnqueueTimes(m, i, n)|
    decreases k, Upcoming(m, i) - m.time
  {
    OneIteration(m, i);
    if ShouldRun(m.jobs[i], m.time) {
      if k == 0 {
        n := 1;
        assert EnqueueTimes(m, i, 1) == [m.time] + EnqueueTimes(Next(m), i, 0);
      } else {
        var n' := EveryTimeIsReached(Next(m), i, k - 1);
        n := n' + 1;
      }
    } else {
      var n' := EveryTimeIsReached(Next(m), i, k);
      n := n' + 1;
    }
  }

  lemma {:induction false} IntervalGrid(interval: int, first: int, k: nat)
    ensures Grid(Every(interval), first, k) == first + k * interval
    decreases k
  {
    if k > 0 {
      IntervalGrid(interval, first + interval, k - 1);
      assert (k - 1) * interval + interval == k * interval;
    }
  }

  /** An interval job registered before the loop starts at `t0` is enqueued at t0 + k *
      interval for every k, and at no other time. */
  lemma IntervalJobsKeepTime(specs: seq<Spec>, at: int, t0: int, i: nat, k: nat) returns (n: nat)
    requires (forall l :: 0 <= l < |specs| ==> Sound(specs[l])) && i < |specs| && specs[i].Every?
    ensures var m := Moment(t0, seq(|specs|, l requires 0 <= l < |specs| => Registered(specs[l], at)));
      && k < |EnqueueTimes(m, i, n)| && EnqueueTimes(m, i, n)[k] == t0 + k * specs[i].interval
      && forall n', k' :: 0 <= k' < |EnqueueTimes(m, i, n')| ==> EnqueueTimes(m, i, n')[k'] == t0 + k' * specs[i].interval
  {
    var m := Moment(t0, seq(|specs|, l requires 0 <= l < |specs| => Registered(specs[l], at)));
    n := EveryTimeIsReached(m, i, k);
    forall n', k': nat | k' < |EnqueueTimes(m, i, n')|
      ensures EnqueueTimes(m, i, n')[k'] == t0 + k' * specs[i].interval
    {
      EnqueuedOnTheGrid(m, i, n', k');
      IntervalGrid(specs[i].interval, t0, k');
    }
  }

  lemma {:induction false} GridNext(spec: Spec, first: int, k: nat)
    ensures Grid(spec, first, k + 1) == Successor(spec, Grid(spec, first, k))
    decreases k
  {
    if k > 0 { GridNext(spec, Successor(spec, first), k - 1); }
  }

  /** A cron job registered at `at`, before a loop that starts at t0, is enqueued first at the
      next matching time, or at once if that has passed, and then at every next matching
      time after the last one. */
  lemma CronJobsFollowTheirExpression(specs: seq<Spec>, at: int, t0: int, i: nat, n: nat, k: nat)
    requires (forall l :: 0 <= l < |specs| ==> Sound(specs[l])) && i < |specs| && specs[i].Matching?
    ensures var m := Moment(t0, seq(|specs|, l requires 0 <= l < |specs| => Registered(specs[l], at)));
      var times := EnqueueTimes(m, i, n);
      && (times != [] ==> times[0] == if specs[i].next(at) >= t0 then specs[i].next(at) else t0)
      && (k + 1 < |times| ==> times[k + 1] == specs[i].next(times[k]))
  {
    var m := Moment(t0, seq(|specs|, l requires 0 <= l < |specs| => Registered(specs[l], at)));
    if EnqueueTimes(m, i, n) != [] { EnqueuedOnTheGrid(m, i, n, 0); }
    if k + 1 < |EnqueueTimes(m, i, n)| {
      EnqueuedOnTheGrid(m, i, n, k);
      EnqueuedOnTheGrid(m, i, n, k + 1);
      GridNext(specs[i], Upcoming(m, i), k);
    }
  }

  // ---------- Whatever the clock says ----------

  /** The iterations of a loop whose sleeps may be cut short or last longer. */
  function EnqueuedAt(j: Job, readings: seq<int>): seq<int>
    decreases |readings|
  {
    if readings == [] then []
    else (if ShouldRun(j, readings[0]) then [readings[0]] else []) + EnqueuedAt(Turn(j, readings[0]), readings[1..])
  }

  /** At any readings, an interval job that has run is not enqueued again before its
      next time, nor within one interval of the enqueue before. */
  lemma {:induction false} NeverTooOften(j: Job, readings: seq<int>, k: nat)
    requires j.spec.Every? && j.latest.Some? && j.nextTime.Some? && k < |EnqueuedAt(j, readings)|
    ensures EnqueuedAt(j, readings)[k]
         >= if k == 0 then j.nextTime.value else EnqueuedAt(j, readings)[k - 1] + j.spec.interval
    decreases |readings|
  {
    if ShouldRun(j, readings[0]) {
      if k > 0 { NeverTooOften(Turn(j, readings[0]), readings[1..], k - 1); }
    } else {
      NeverTooOften(j, readings[1..], k);
    }
  }

  // ---------- The scheduler ----------

  class CronJob {
    const spec: Spec
    var latestEnqueueTime: Option<int>
    var nextEnqueueTime: Option<int>

    constructor (spec: Spec, now: int)
      ensures this.spec == spec && Value() == Registered(spec, now)
    {
      this.spec := spec;
      latestEnqueueTime := None;
      nextEnqueueTime := if spec.Every? then None else Some(spec.next(now));
    }

    function Value(): Job
      reads this
    {
      Job(spec, latestEnqueueTime, nextEnqueueTime)
    }

    method ShouldRunNow(now: int) returns (r: bool)
      ensures r == ShouldRun(Value(), now)
    {
      if latestEnqueueTime.None? && spec.Every? { return true; }
      if nextEnqueueTime.Some? { return now >= nextEnqueueTime.value; }
      return false;
    }

    method SetEnqueueTime(time: int)
      modifies this
      ensures Value() == Enqueued(old(Value()), time)
    {
      latestEnqueueTime := Some(time);
      nextEnqueueTime := Some(Successor(spec, time));
    }
  }

  class CronScheduler {
    const cronJobs: seq<CronJob>

    constructor (cronJobs: seq<CronJob>)
      ensures this.cronJobs == cronJobs
    {
      this.cronJobs := cronJobs;
    }

    /** The jobs' current values. */
    ghost predicate Shows(jobs: seq<Job>)
      reads cronJobs
    {
      |jobs| == |cronJobs| && forall i :: 0 <= i < |jobs| ==> cronJobs[i].Value() == jobs[i]
    }

    method EnqueueJobs(now: int, ghost before: seq<Job>) returns (enqueued: seq<CronJob>)
      requires NoDup(cronJobs) && Shows(before)
      modifies cronJobs
      ensures Shows(Turns(before, now))
      ensures forall i :: 0 <= i < |cronJobs| ==> (cronJobs[i] in enqueued <==> ShouldRun(before[i], now))
      ensures NoDup(enqueued)
    {
      enqueued := [];
      for i := 0 to |cronJobs|
        invariant forall k :: 0 <= k < i ==> cronJobs[k].Value() == Turn(before[k], now)
        invariant forall k :: i <= k < |cronJobs| ==> cronJobs[k].Value() == before[k]
        invariant forall k :: 0 <= k < i ==> (cronJobs[k] in enqueued <==> ShouldRun(before[k], now))
        invariant forall j :: j in enqueued ==> j in cronJobs[..i]
        invariant NoDup(enqueued)
      {
        var job := cronJobs[i];
        var due := job.ShouldRunNow(now);
        assert job !in cronJobs[..i];
        if due {
          job.SetEnqueueTime(now);
          enqueued := enqueued + [job];
        }
      }
    }

    method CalculateSleepInterval(now: int, ghost jobs: seq<Job>) returns (s: int)
      requires Shows(jobs)
      ensures s == Sleep(jobs, now)
    {
      var closest: Option<int> := None;
      for i := 0 to |cronJobs|
        invariant closest == Closest(jobs[..i])
      {
        assert jobs[..i + 1][..i] == jobs[..i];
        var t := cronJobs[i].nextEnqueueTime;
        assert cronJobs[i].Value() == jobs[i];
        if t.Some? && (closest.None? || t.value < closest.value) { closest := t; }
      }
      assert jobs[..|jobs|] == jobs;
      if closest.None? { return MAX_SLEEP; }
      if closest.value - now <= 0 { return 0; }
      return if closest.value - now < MAX_SLEEP then closest.value - now else MAX_SLEEP;
    }

    /** The loop until a stop is requested after `iterations` rounds. */
    method Start(time: int, iterations: nat, ghost before: seq<Job>) returns (now: int)
      requires NoDup(cronJobs) && Shows(before)
      modifies cronJobs
      ensures now == After(Moment(time, before), iterations).time
      ensures Shows(After(Moment(time, before), iterations).jobs)
    {
      now := time;
      ghost var jobs := before;
      var n := iterations;
      while n > 0
        invariant 0 <= n <= iterations && Shows(jobs)
        invariant After(Moment(now, jobs), n) == After(Moment(time, before), iterations)
      {
        ghost var m := Moment(now, jobs);
        var _ := EnqueueJobs(now, jobs);
        jobs := Turns(jobs, now);
        var sleepTime := CalculateSleepInterval(now, jobs);
        now := now + sleepTime;
        assert Moment(now, jobs) == Next(m);
        n := n - 1;
      }
    }
  }
}
