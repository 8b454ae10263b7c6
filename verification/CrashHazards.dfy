/** What the assumptions of CrashModel.dfy are needed for: for each of them a run in
    which the code, left to itself, loses a job. */
module CrashHazards {
  import opened Common
  import opened CrashModel
  import opened CrashRuns

  ghost predicate Nowhere(r: Redis, j: JobId) {
    && j !in r.queue && j !in r.intermediate && j !in r.deferred && j !in r.scheduled
    && forall e :: Entry(j, e) !in r.started
  }

  /** Saved, not terminal, and in none of the five places. */
  ghost predicate Lost(r: Redis, j: JobId) {
    j in r.jobs && !Terminal(r.jobs[j]) && Nowhere(r, j)
  }

  /** The job has retries left, and the next one comes after a delay. */
  predicate DelayedRetry(s: System, j: JobId) {
    Grants(Left(s.r, j), Exception) && Delayed(s, j, Left(s.r, j), Exception)
  }

  // ---------- 1. The scheduler overtakes schedule_job ----------

  /** `schedule_job` sends ZADD before the transaction that saves the hash. If the
      scheduler reads and drains the id in between, it finds no hash and drops the
      id: this can happen in any state, to any new job. */
  lemma ScheduledJobLost(s: System, i: ClientId, k: ClientId, j: JobId, counters: Counters) returns (s': System)
    requires i in s.clients && k in s.clients && i != k && s.clients[i].Idle? && s.clients[k].Idle?
    requires j !in s.claimed && j !in s.r.jobs && Nowhere(s.r, j)
    ensures Reaches(Journey(s, false), s') && Lost(s'.r, j) && s'.r.jobs[j] == Scheduled
  {
    var g := Journey(s, false);
    Begin(g);
    var s1 := Act(g, s, i, ScheduleAdd(j), s.r.(scheduled := s.r.scheduled + {j}), Saving(j));
    var s2 := DrainMissing(g, s1, k, j);
    s' := Act(g, s2, i, ScheduleSave(counters), s2.r.(jobs := s2.r.jobs[j := Scheduled]), Idle);
  }

  lemma DrainMissing(g: Journey, t: System, k: ClientId, j: JobId) returns (s': System)
    requires Reaches(g, t) && !g.careful
    requires k in t.clients && t.clients[k].Idle? && j !in t.r.jobs && j in t.r.scheduled
    ensures Reaches(g, s') && OnlyMoved(t, s', k) && s'.r == t.r.(left := s'.r.left, scheduled := t.r.scheduled - {j})
  {
    assert ToSet([j]) == {j} && ToSet([j]) * t.r.jobs.Keys == {};
    var t1 := Act(g, t, k, DrainRead([j]), t.r, Draining([j], {}));
    DropOne(t1.r, j);
    s' := Act(g, t1, k, DrainExec({}), t1.r.(scheduled := t1.r.scheduled - {j}), Idle);
  }

  lemma DropOne(r: Redis, j: JobId)
    ensures Drained(r, [j], {}, {}) == r.(scheduled := r.scheduled - {j})
  {
    assert ToSet([j]) == {j} && {j} * {} == {} && [j][1..] == [];
    assert PushAll(r.queue, [], {}, {}) == r.queue;
    assert (map x | x in r.jobs.Keys + {} :: r.jobs[x]) == r.jobs;
  }

  /** If the scheduler comes only after the transaction, the job reaches the queue. */
  lemma ScheduledJobKept(s: System, i: ClientId, k: ClientId, j: JobId, counters: Counters) returns (s': System)
    requires i in s.clients && k in s.clients && i != k && s.clients[i].Idle? && s.clients[k].Idle?
    requires j !in s.claimed && j !in s.r.jobs && Nowhere(s.r, j)
    ensures Reaches(Journey(s, false), s') && j in s'.r.queue && j in s'.r.jobs && s'.r.jobs[j] == Queued
  {
    var g := Journey(s, false);
    Begin(g);
    var s1 := Act(g, s, i, ScheduleAdd(j), s.r.(scheduled := s.r.scheduled + {j}), Saving(j));
    var s2 := Act(g, s1, i, ScheduleSave(counters), s1.r.(jobs := s1.r.jobs[j := Scheduled]), Idle);
    s' := DrainOne(g, s2, k, j);
  }

  lemma TakeJob(g: Journey, t: System, k: ClientId, j: JobId) returns (t': System)
    requires Reaches(g, t) && k in t.clients && t.clients[k].Idle? && t.r.queue == [j] && t.r.intermediate == []
    ensures Reaches(g, t') && Moved(t, t', k, t.r.(queue := [], intermediate := [j]), Dequeued(j)) && t'.execs == t.execs
  {
    assert [j][1..] == [] && [] + [j] == [j] && [j][0] == j;
    t' := Act(g, t, k, Dequeue, t.r.(queue := [], intermediate := [j]), Dequeued(j));
  }

  lemma StartWork(g: Journey, t: System, k: ClientId, j: JobId, e: nat) returns (t': System)
    requires Reaches(g, t) && k in t.clients && t.clients[k] == Prepared(j, e) && t.r.intermediate == [j]
    ensures Reaches(g, t')
    ensures Moved(t, t', k, t.r.(jobs := t.r.jobs[j := Started], intermediate := []), Running(j, e))
  {
    assert RemoveFirst([j], j) == [];
    t' := Act(g, t, k, PrepareJob, t.r.(jobs := t.r.jobs[j := Started], intermediate := []), Running(j, e));
  }

  lemma Execute(g: Journey, t: System, k: ClientId, j: JobId, e: nat) returns (s': System)
    requires Reaches(g, t) && k in t.clients && t.clients[k] == Prepared(j, e) && t.r.intermediate == [j]
    ensures Reaches(g, s') && OnlyMoved(t, s', k) && s'.clients[k].Idle?
    ensures s'.r == t.r.(left := s'.r.left, jobs := t.r.jobs[j := Started][j := Finished], intermediate := [],
                         started := t.r.started - {Entry(j, e)})
  {
    var t1 := StartWork(g, t, k, j, e);
    s' := FinishWork(g, t1, k, j, e);
  }

  /** One job taken by a worker and carried out. */
  lemma WorkOne(g: Journey, t: System, k: ClientId, j: JobId, e: nat) returns (s': System)
    requires Reaches(g, t) && k in t.clients && t.clients[k].Idle? && t.r.queue == [j] && j in t.r.jobs
    requires t.r.intermediate == [] && e !in t.execs && Entry(j, e) !in t.r.started
    ensures Reaches(g, s') && OnlyMoved(t, s', k) && s'.clients[k].Idle?
    ensures s'.r == t.r.(left := s'.r.left, jobs := t.r.jobs[j := Finished], queue := [])
  {
    var t1 := TakeJob(g, t, k, j);
    var t2 := Prepare(g, t1, k, j, e);
    s' := Execute(g, t2, k, j, e);
    assert t.r.started + {Entry(j, e)} - {Entry(j, e)} == t.r.started;
    assert t.r.jobs[j := Started][j := Finished] == t.r.jobs[j := Finished];
  }

  // ---------- 2. An entry that somebody answers for is cleaned up ----------

  lemma SweepReschedules(g: Journey, t: System, k: ClientId, j: JobId, e: nat) returns (s': System)
    requires Reaches(g, t) && k in t.clients && t.clients[k] == Sweeping({Entry(j, e)}, [j], [])
    requires j in t.r.jobs && DelayedRetry(t, j)
    ensures Reaches(g, s') && OnlyMoved(t, s', k) && s'.clients[k].Idle? && s'.execs == t.execs
    ensures s'.r == t.r.(left := s'.r.left, jobs := t.r.jobs[j := Scheduled],
                         started := t.r.started - {Entry(j, e)}, scheduled := t.r.scheduled + {j})
  {
    var t1 := FetchForSweep(g, t, k, j, e);
    var t2 := MarkForSweep(g, t1, k, j, e);
    var t3 := AddForSweep(g, t2, k, j, e);
    s' := EndSweep(g, t3, k, j, e);
    assert t.r.jobs[j := Scheduled][j := Scheduled] == t.r.jobs[j := Scheduled];
  }

  /** A cleanup that has read the entry reschedules the job, a scheduler moves it and a
      worker carries it out: the job is finished, and nowhere. */
  lemma SweepAndFinish(g: Journey, t: System, k: ClientId, j: JobId, e: nat, e': nat) returns (s': System)
    requires Reaches(g, t) && !g.careful && k in t.clients && t.clients[k] == Sweeping({Entry(j, e)}, [j], [])
    requires j in t.r.jobs && DelayedRetry(t, j) && e' !in t.execs
    requires t.r.started == {Entry(j, e)} && t.r.queue == [] && t.r.intermediate == []
    requires j !in t.r.deferred && j !in t.r.scheduled
    ensures Reaches(g, s') && OnlyMoved(t, s', k) && j in s'.r.jobs && Nowhere(s'.r, j)
  {
    var t1 := SweepReschedules(g, t, k, j, e);
    assert t1.r.started == {};
    s' := CarryOut(g, t1, k, j, e');
  }

  /** Two cleanups read the same entry and the same hash, and both mean to reschedule the
      job. One does, and the job is carried out; then the other sets the status to
      SCHEDULED and dies before its ZADD. */
  lemma AbandonedJobLost(s: System, i: ClientId, k: ClientId, j: JobId, e: nat, e': nat) returns (s': System)
    requires i in s.clients && k in s.clients && i != k && s.clients[i].Idle? && s.clients[k].Idle?
    requires s.r.started == {Entry(j, e)} && j in s.r.jobs && DelayedRetry(s, j) && e' !in s.execs
    requires s.r.queue == [] && s.r.intermediate == [] && j !in s.r.deferred && j !in s.r.scheduled
    ensures Reaches(Journey(s, false), s') && Lost(s'.r, j)
  {
    var g := Journey(s, false);
    Begin(g);
    var s1 := ReadEntry(g, s, i, j, e);
    var s2 := ReadEntry(g, s1, k, j, e);
    var s3 := FetchForSweep(g, s2, i, j, e);
    assert s3.r == s.r && s3.clients[k] == s2.clients[k] && DelayedRetry(s3, j);
    var s4 := SweepAndFinish(g, s3, k, j, e, e');
    assert Copies(s4, i) == Copies(s3, i) && s4.clients[i] == s3.clients[i];
    var s5 := MarkForSweep(g, s4, i, j, e);
    s' := Die(g, s5, i);
  }

  /** The entry of a worker that is only slow expires. The cleanup reschedules the job,
      which is carried out elsewhere; then the first execution fails, and its worker
      sets the status to SCHEDULED and dies before its ZADD. */
  lemma ExpiredEntryLost(s: System, i: ClientId, k: ClientId, j: JobId, e: nat, e': nat) returns (s': System)
    requires i in s.clients && k in s.clients && i != k && s.clients[i] == Running(j, e) && s.clients[k].Idle?
    requires s.r.started == {Entry(j, e)} && j in s.r.jobs && DelayedRetry(s, j) && Later(s, i, j, Exception) && e' !in s.execs
    requires s.r.queue == [] && s.r.intermediate == [] && j !in s.r.deferred && j !in s.r.scheduled
    ensures Reaches(Journey(s, false), s') && Lost(s'.r, j)
  {
    var g := Journey(s, false);
    Begin(g);
    var s1 := ReadEntry(g, s, k, j, e);
    var s2 := SweepAndFinish(g, s1, k, j, e, e');
    assert Copies(s2, i) == Copies(s, i);
    s' := MarkAndDie(g, s2, i, j, e);
  }

  /** The last two steps of a worker that means to retry its job later. */
  lemma MarkAndDie(g: Journey, t: System, i: ClientId, j: JobId, e: nat) returns (s': System)
    requires Reaches(g, t) && i in t.clients && t.clients[i] == Running(j, e) && Later(t, i, j, Exception)
    requires Nowhere(t.r, j)
    ensures Reaches(g, s') && Lost(s'.r, j)
  {
    var t1 := Act(g, t, i, RetryMark(Exception), t.r.(jobs := t.r.jobs[j := Scheduled]), Marked(j, e, false));
    s' := Die(g, t1, i);
  }

  // ---------- 3. A live worker's job is taken for stuck ----------

  /** A cleanup takes the job a worker has just dequeued for stuck, and goes on after
      the worker has finished with it: its late LREM hits the next worker's entry. */
  lemma DequeuedJobLost(s: System, i: ClientId, k: ClientId, j: JobId, e: nat) returns (s': System)
    requires i in s.clients && k in s.clients && i != k && s.clients[k].Idle?
    requires s.clients[i] == Dequeued(j) && j in s.r.jobs && e !in s.execs
    requires Grants(Left(s.r, j), Exception) && !Delayed(s, j, Left(s.r, j), Exception)
    requires s.r.intermediate == [j] && s.r.queue == [] && s.r.started == {}
    requires j !in s.r.deferred && j !in s.r.scheduled
    ensures Reaches(Journey(s, false), s') && Lost(s'.r, j)
  {
    var g := Journey(s, false);
    Begin(g);
    var s1 := Act(g, s, k, StuckPick(j), s.r, Stuck(j));
    var s2 := Prepare(g, s1, i, j, e);
    var s3 := Execute(g, s2, i, j, e);
    assert Copies(s3, k) == Copies(s1, k) && Copy(s3, k, j) == Left(s.r, j);
    s' := LateRemoval(g, s3, i, k, j);
  }

  lemma LateRemoval(g: Journey, s4: System, i: ClientId, k: ClientId, j: JobId) returns (s': System)
    requires Reaches(g, s4) && i in s4.clients && k in s4.clients && i != k
    requires s4.clients[k] == Stuck(j) && s4.clients[i] == Idle && j in s4.r.jobs && AtOnce(s4, k, j, Exception)
    requires s4.r.intermediate == [] && s4.r.queue == [] && s4.r.started == {}
    requires j !in s4.r.deferred && j !in s4.r.scheduled
    ensures Reaches(g, s') && Lost(s'.r, j)
  {
    assert [] + [j] == [j];
    var s5 := Act(g, s4, k, StuckResolve(Requeues(false)), Enqueued(s4.r, j, false), StuckDone(j));
    s' := RemoveOther(g, s5, i, k, j);
  }

  lemma RemoveOther(g: Journey, t: System, i: ClientId, k: ClientId, j: JobId) returns (s': System)
    requires Reaches(g, t) && i in t.clients && k in t.clients && i != k
    requires t.clients[k] == StuckDone(j) && t.clients[i] == Idle && j in t.r.jobs && t.r.jobs[j] == Queued
    requires t.r.intermediate == [] && t.r.queue == [j] && t.r.started == {}
    requires j !in t.r.deferred && j !in t.r.scheduled
    ensures Reaches(g, s') && Lost(s'.r, j)
  {
    assert RemoveFirst([j], j) == [];
    var s1 := TakeJob(g, t, i, j);
    var s2 := Act(g, s1, k, StuckRemove, s1.r.(intermediate := []), Idle);
    s' := Die(g, s2, i);
  }

  // ---------- 4. A job is canceled under the client that works on it ----------

  /** A job is canceled while it executes, which removes its entry; it then fails, and
      its worker sets the status to SCHEDULED and dies before its ZADD. */
  lemma CanceledJobLost(s: System, i: ClientId, k: ClientId, j: JobId, e: nat) returns (s': System)
    requires i in s.clients && k in s.clients && i != k && s.clients[i] == Running(j, e) && s.clients[k].Idle?
    requires j in s.r.jobs && s.r.jobs[j] == Started && Later(s, i, j, Exception)
    requires j !in s.r.queue && j !in s.r.intermediate && j !in s.r.deferred && j !in s.r.scheduled
    ensures Reaches(Journey(s, false), s') && Lost(s'.r, j)
  {
    var g := Journey(s, false);
    Begin(g);
    NotThere(s.r.queue, j);
    var s1 := Act(g, s, k, CancelRead(j, true), s.r, Canceling(j, Started, EntriesOf(s.r, j)));
    var s2 := Act(g, s1, k, CancelExec,
      s1.r.(jobs := s1.r.jobs[j := Canceled], started := s1.r.started - EntriesOf(s.r, j)), Idle);
    assert Copies(s2, i) == Copies(s, i);
    s' := MarkAndDie(g, s2, i, j, e);
  }

  lemma {:induction false} NotThere(xs: seq<JobId>, j: JobId)
    requires j !in xs
    ensures RemoveFirst(xs, j) == xs
  {
    if xs != [] { NotThere(xs[1..], j); }
  }

  /** A job is canceled between the ZADD and the transaction that puts it off: its status
      becomes SCHEDULED after its id has left the scheduled registry. */
  lemma CanceledRetryLost(s: System, i: ClientId, k: ClientId, j: JobId, e: nat) returns (s': System)
    requires i in s.clients && k in s.clients && i != k && s.clients[i] == Added(j, e, false) && s.clients[k].Idle?
    requires j in s.r.jobs && s.r.jobs[j] == Scheduled && s.r.started == {Entry(j, e)}
    requires j !in s.r.queue && j !in s.r.intermediate && j !in s.r.deferred
    ensures Reaches(Journey(s, false), s') && Lost(s'.r, j) && s'.r.jobs[j] == Scheduled
  {
    var g := Journey(s, false);
    Begin(g);
    NotThere(s.r.queue, j);
    var s1 := Act(g, s, k, CancelRead(j, true), s.r, Canceling(j, Scheduled, {}));
    var s2 := Act(g, s1, k, CancelExec,
      s1.r.(jobs := s1.r.jobs[j := Canceled], scheduled := s1.r.scheduled - {j}), Idle);
    s' := CommitAnyway(g, s2, i, j, e);
  }

  lemma CommitAnyway(g: Journey, t: System, i: ClientId, j: JobId, e: nat) returns (s': System)
    requires Reaches(g, t) && i in t.clients && t.clients[i] == Added(j, e, false)
    requires t.r.started == {Entry(j, e)} && j !in t.r.scheduled
    requires j !in t.r.queue && j !in t.r.intermediate && j !in t.r.deferred
    ensures Reaches(g, s') && Lost(s'.r, j) && s'.r.jobs[j] == Scheduled
  {
    s' := Act(g, t, i, CommitSchedule,
      t.r.(jobs := t.r.jobs[j := Scheduled], started := t.r.started - {Entry(j, e)}), Idle);
  }

  // ---------- 5. A work horse dies after its transaction ----------

  /** A work horse has put its job off and dies all the same; its worker, which has a copy
      of the job from before, handles the failure once more. Meanwhile the job is carried
      out elsewhere; the worker sets the status to SCHEDULED and dies before its ZADD. */
  lemma KilledHorseLost(s: System, i: ClientId, k: ClientId, j: JobId, e: nat, e': nat) returns (s': System)
    requires i in s.clients && k in s.clients && i != k && s.clients[i] == Added(j, e, false) && s.clients[k].Idle?
    requires i in s.parents && s.parents[i].j == j
      && Grants(s.parents[i].copy, Exception) && Delayed(s, j, s.parents[i].copy, Exception)
    requires j in s.r.jobs && j in s.r.scheduled && s.r.started == {Entry(j, e)} && e' !in s.execs
    requires s.r.queue == [] && s.r.intermediate == [] && j !in s.r.deferred
    ensures Reaches(Journey(s, false), s') && Lost(s'.r, j)
  {
    var g := Journey(s, false);
    Begin(g);
    var s1 := WorkerTakesOver(g, s, i, j, e);
    var s2 := CarryOut(g, s1, k, j, e');
    assert Copies(s2, i) == Copies(s1, i);
    s' := MarkAndDie(g, s2, i, j, s.parents[i].e);
  }

  lemma WorkerTakesOver(g: Journey, t: System, i: ClientId, j: JobId, e: nat) returns (t': System)
    requires Reaches(g, t) && !g.careful && i in t.clients && t.clients[i] == Added(j, e, false) && j in t.r.jobs
    requires i in t.parents && t.parents[i].j == j
    ensures Reaches(g, t') && OnlyMoved(t, t', i) && t'.execs == t.execs
    ensures t'.clients[i] == Running(j, t.parents[i].e) && Copy(t', i, j) == t.parents[i].copy
    ensures t'.r == t.r.(left := t'.r.left, jobs := t.r.jobs[j := Scheduled], started := t.r.started - {Entry(j, e)})
  {
    var t1 := Act(g, t, i, CommitSchedule,
      t.r.(jobs := t.r.jobs[j := Scheduled], started := t.r.started - {Entry(j, e)}), Idle);
    t' := TakeOver(g, t1, i);
  }

  lemma TakeOver(g: Journey, t: System, i: ClientId) returns (t': System)
    requires Reaches(g, t) && !g.careful && i in t.clients && t.clients[i].Idle? && i in t.parents
    requires t.parents[i].j in t.r.jobs && t.r.jobs[t.parents[i].j] == Scheduled
    ensures Reaches(g, t') && Moved(t, t', i, t.r, Running(t.parents[i].j, t.parents[i].e))
    ensures Copy(t', i, t.parents[i].j) == t.parents[i].copy && t'.execs == t.execs
  {
    t' := Act(g, t, i, HorseDies, t.r, Running(t.parents[i].j, t.parents[i].e));
  }

  lemma CarryOut(g: Journey, t: System, k: ClientId, j: JobId, e: nat) returns (s': System)
    requires Reaches(g, t) && !g.careful && k in t.clients && t.clients[k].Idle? && j in t.r.jobs && j in t.r.scheduled
    requires t.r.started == {} && t.r.queue == [] && t.r.intermediate == [] && j !in t.r.deferred && e !in t.execs
    ensures Reaches(g, s') && OnlyMoved(t, s', k) && j in s'.r.jobs && Nowhere(s'.r, j)
  {
    var t1 := DrainOne(g, t, k, j);
    assert t1.r.queue == [j] && t1.r.started == {} && t1.r.intermediate == [] && j !in t1.r.scheduled;
    s' := WorkOne(g, t1, k, j, e);
  }

  // ---------- 6. Two clients have one job in hand ----------

  /** What one retry is paid for: the job is pushed twice more, and one retry less is left. */
  ghost predicate TwoForOne(s: System, t: System, j: JobId) {
    && multiset(t.r.queue)[j] == multiset(s.r.queue)[j] + 2
    && Grants(Left(s.r, j), Exception) && Left(t.r, j) == Used(Left(s.r, j), Exception)
  }

  /** The job has retries left, and the next one comes at once. */
  predicate PromptRetry(s: System, j: JobId) {
    Grants(Left(s.r, j), Exception) && !Delayed(s, j, Left(s.r, j), Exception)
  }

  lemma PushOnce(xs: seq<JobId>, j: JobId)
    ensures multiset(Push(xs, j, false))[j] == multiset(xs)[j] + 1
  {
  }

  /** A cleanup that has fetched the job puts it back. */
  lemma SweepRequeues(g: Journey, t: System, k: ClientId, j: JobId, e: nat) returns (t': System)
    requires Reaches(g, t) && k in t.clients && t.clients[k] == SweepFetched({Entry(j, e)}, [j], [])
    requires AtOnce(t, k, j, Exception)
    ensures Reaches(g, t') && OnlyMoved(t, t', k)
    ensures multiset(t'.r.queue)[j] == multiset(t.r.queue)[j] + 1 && Left(t'.r, j) == Used(Copy(t, k, j), Exception)
  {
    var t1 := DecideRequeue(g, t, k, j, e);
    t' := ExecRequeue(g, t1, k, j, e);
  }

  lemma DecideRequeue(g: Journey, t: System, k: ClientId, j: JobId, e: nat) returns (t': System)
    requires Reaches(g, t) && k in t.clients && t.clients[k] == SweepFetched({Entry(j, e)}, [j], [])
    requires AtOnce(t, k, j, Exception)
    ensures Reaches(g, t') && Moved(t, t', k, t.r, Sweeping({Entry(j, e)}, [], [PipeItem(j, Requeues(false))]))
    ensures Copy(t', k, j) == Used(Copy(t, k, j), Exception)
  {
    var it := PipeItem(j, Requeues(false));
    assert [j][0] == j && [j][1..] == [] && [] + [it] == [it];
    t' := Act(g, t, k, SweepDecide(Requeues(false)), t.r, Sweeping({Entry(j, e)}, [], [it]));
  }

  lemma ExecRequeue(g: Journey, t: System, k: ClientId, j: JobId, e: nat) returns (t': System)
    requires Reaches(g, t) && k in t.clients && t.clients[k] == Sweeping({Entry(j, e)}, [], [PipeItem(j, Requeues(false))])
    ensures Reaches(g, t') && OnlyMoved(t, t', k)
    ensures multiset(t'.r.queue)[j] == multiset(t.r.queue)[j] + 1 && Left(t'.r, j) == Copy(t, k, j)
  {
    var it := PipeItem(j, Requeues(false));
    RunOne(t.r, it);
    assert PutBack([it]) == {j};
    PushOnce(t.r.queue, j);
    t' := Then(g, t, k, SweepExec);
  }

  /** Two cleanups of one entry put its job back twice for one retry. */
  lemma AbandonedJobPutBackTwice(s: System, i: ClientId, k: ClientId, j: JobId, e: nat) returns (s': System)
    requires i in s.clients && k in s.clients && i != k && s.clients[i].Idle? && s.clients[k].Idle?
    requires Entry(j, e) in s.r.started && j in s.r.jobs && PromptRetry(s, j)
    ensures Reaches(Journey(s, false), s') && TwoForOne(s, s', j)
  {
    var g := Journey(s, false);
    Begin(g);
    var s1 := ReadEntry(g, s, i, j, e);
    var s2 := ReadEntry(g, s1, k, j, e);
    var s3 := FetchForSweep(g, s2, i, j, e);
    var s4 := FetchForSweep(g, s3, k, j, e);
    assert Copies(s4, i) == Copies(s3, i);
    var s5 := SweepRequeues(g, s4, i, j, e);
    assert Copies(s5, k) == Copies(s4, k) && s5.clients[k] == s4.clients[k];
    s' := SweepRequeues(g, s5, k, j, e);
  }

  /** The assumptions do not exclude that: a cleanup handles what a dead worker has left
      of a job, while another worker fetches the same job and fails with it. */
  lemma TakenUpJobPutBackTwice(s: System, i: ClientId, k: ClientId, j: JobId, e: nat, e': nat) returns (s': System)
    requires i in s.clients && k in s.clients && i != k && s.clients[i] == Dequeued(j) && s.clients[k].Idle?
    requires Entry(j, e) in s.r.started && Unowned(s, {Entry(j, e)}) && j in s.r.jobs && PromptRetry(s, j)
    requires e' !in s.execs
    ensures Reaches(Journey(s, true), s') && TwoForOne(s, s', j)
  {
    var g := Journey(s, true);
    Begin(g);
    var s1 := ReadEntry(g, s, k, j, e);
    var s2 := FetchForSweep(g, s1, k, j, e);
    var s3 := FailAtOnce(g, s2, i, j, e');
    assert Copies(s3, k) == Copies(s2, k) && s3.clients[k] == s2.clients[k];
    s' := SweepRequeues(g, s3, k, j, e);
  }

  /** A worker fetches and starts the job, which fails and is put back at once. */
  lemma FailAtOnce(g: Journey, t: System, i: ClientId, j: JobId, e: nat) returns (t': System)
    requires Reaches(g, t) && i in t.clients && t.clients[i] == Dequeued(j) && j in t.r.jobs && e !in t.execs
    requires PromptRetry(t, j)
    ensures Reaches(g, t') && OnlyMoved(t, t', i)
    ensures multiset(t'.r.queue)[j] == multiset(t.r.queue)[j] + 1
  {
    var t1 := Prepare(g, t, i, j, e);
    var t2 := Act(g, t1, i, PrepareJob,
      t1.r.(jobs := t1.r.jobs[j := Started], intermediate := RemoveFirst(t1.r.intermediate, j)), Running(j, e));
    t' := RetryAtOnce(g, t2, i, j, e);
  }

  lemma RetryAtOnce(g: Journey, t: System, i: ClientId, j: JobId, e: nat) returns (t': System)
    requires Reaches(g, t) && i in t.clients && t.clients[i] == Running(j, e) && AtOnce(t, i, j, Exception)
    ensures Reaches(g, t') && OnlyMoved(t, t', i)
    ensures multiset(t'.r.queue)[j] == multiset(t.r.queue)[j] + 1
  {
    PushOnce(t.r.queue, j);
    t' := Act(g, t, i, RetryNow(false, Exception),
      Enqueued(t.r, j, false).(started := t.r.started - {Entry(j, e)}), Idle);
  }
}
