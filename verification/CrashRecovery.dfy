/** Being in one of the places of CrashModel.dfy is enough: whatever has crashed, one
    client that does maintenance, scheduling and work takes every such job up again. */
module CrashRecovery {
  import opened Common
  import opened CrashModel
  import opened CrashRuns

  /** The job is being executed, or its life is over. */
  ghost predicate TakenUp(t: System, k: ClientId, j: JobId) {
    || (k in t.clients && t.clients[k].Running? && t.clients[k].j == j)
    || (j in t.r.jobs && Terminal(t.r.jobs[j]))
  }

  /** Nobody but k is doing anything. */
  ghost predicate Alone(t: System, k: ClientId) {
    k in t.clients && forall i :: i in t.clients && i != k ==> t.clients[i].Idle?
  }

  ghost predicate Ready(g: Journey, t: System, k: ClientId, j: JobId) {
    Reaches(g, t) && Alone(t, k) && t.clients[k].Idle? && j in t.r.jobs
  }

  lemma FreshExecution(execs: set<nat>) returns (e: nat)
    ensures e !in execs
    ensures forall x :: x in execs ==> x < e
    decreases |execs|
  {
    if execs == {} {
      e := 0;
    } else {
      var x :| x in execs;
      var rest := FreshExecution(execs - {x});
      e := if x < rest then rest else x + 1;
      forall y | y in execs ensures y < e {
        if y != x { assert y in execs - {x}; }
      }
    }
  }

  /** The next job of the queue is started, if there is a job for its id. */
  lemma StartNext(g: Journey, t: System, k: ClientId) returns (t': System, e: nat)
    requires Reaches(g, t) && k in t.clients && t.clients[k].Idle? && t.r.queue != [] && t.r.queue[0] in t.r.jobs
    ensures Reaches(g, t') && k in t'.clients && t'.clients[k] == Running(t.r.queue[0], e)
    ensures t'.r.queue == t.r.queue[1..] && t'.r.jobs.Keys == t.r.jobs.Keys && (Alone(t, k) ==> Alone(t', k))
  {
    var x := t.r.queue[0];
    var t1 := TakeNext(g, t, k);
    e := FreshExecution(t1.execs);
    var t2 := Prepare(g, t1, k, x, e);
    t' := Act(g, t2, k, PrepareJob,
      t2.r.(jobs := t2.r.jobs[x := Started], intermediate := RemoveFirst(t2.r.intermediate, x)), Running(x, e));
  }

  lemma TakeNext(g: Journey, t: System, k: ClientId) returns (t': System)
    requires Reaches(g, t) && k in t.clients && t.clients[k].Idle? && t.r.queue != []
    ensures Reaches(g, t')
    ensures var x := t.r.queue[0];
      Moved(t, t', k, t.r.(queue := t.r.queue[1..], intermediate := t.r.intermediate + [x]), Dequeued(x))
  {
    var x := t.r.queue[0];
    t' := Act(g, t, k, Dequeue, t.r.(queue := t.r.queue[1..], intermediate := t.r.intermediate + [x]), Dequeued(x));
  }

  /** A queued job is started after those ahead of it. */
  lemma {:induction false} ServeQueued(g: Journey, t: System, k: ClientId, j: JobId) returns (t': System)
    requires Ready(g, t, k, j) && j in t.r.queue
    ensures Reaches(g, t') && TakenUp(t', k, j)
    decreases |t.r.queue|
  {
    var x := t.r.queue[0];
    assert t.r.queue == [x] + t.r.queue[1..];
    if x in t.r.jobs {
      var t1, e := StartNext(g, t, k);
      if x == j {
        t' := t1;
      } else {
        var t2 := FinishWork(g, t1, k, x, e);
        t' := ServeQueued(g, t2, k, j);
      }
    } else {
      var t1 := TakeNext(g, t, k);
      var t2 := Act(g, t1, k, FetchMissing, t1.r, Idle);
      t' := ServeQueued(g, t2, k, j);
    }
  }

  lemma ServeScheduled(g: Journey, t: System, k: ClientId, j: JobId) returns (t': System)
    requires Ready(g, t, k, j) && j in t.r.scheduled
    ensures Reaches(g, t') && TakenUp(t', k, j)
  {
    var t1 := DrainOne(g, t, k, j);
    assert t1.r.queue[|t1.r.queue| - 1] == j;
    t' := ServeQueued(g, t1, k, j);
  }

  /** The cleanup of an abandoned execution gives the job up, requeues or reschedules it. */
  lemma ServeStarted(g: Journey, t: System, k: ClientId, j: JobId, e: nat) returns (t': System)
    requires Ready(g, t, k, j) && Entry(j, e) in t.r.started
    ensures Reaches(g, t') && TakenUp(t', k, j)
  {
    var t1 := ReadEntry(g, t, k, j, e);
    var t2 := FetchForSweep(g, t1, k, j, e);
    if Later(t2, k, j, Exception) {
      var t3 := MarkForSweep(g, t2, k, j, e);
      var t4 := AddForSweep(g, t3, k, j, e);
      var t5 := EndSweep(g, t4, k, j, e);
      t' := ServeScheduled(g, t5, k, j);
    } else if Spent(t2, k, j) {
      t' := DecideSweep(g, t2, k, j, e, Fails);
    } else {
      var t3 := DecideSweep(g, t2, k, j, e, Requeues(false));
      assert t3.r.queue[|t3.r.queue| - 1] == j;
      t' := ServeQueued(g, t3, k, j);
    }
  }

  lemma DecideSweep(g: Journey, t: System, k: ClientId, j: JobId, e: nat, v: Verdict) returns (t': System)
    requires Reaches(g, t) && k in t.clients && t.clients[k] == SweepFetched({Entry(j, e)}, [j], [])
    requires v != Reschedules && Justified(t, k, j, v)
    ensures Reaches(g, t') && k in t'.clients && t'.clients[k].Idle? && (Alone(t, k) ==> Alone(t', k))
    ensures t'.r == RunItem(t.r, PipeItem(j, v)).(left := t'.r.left, started := t.r.started - {Entry(j, e)})
  {
    var it := PipeItem(j, v);
    assert [j][0] == j && [j][1..] == [] && [] + [it] == [it];
    var t1 := Act(g, t, k, SweepDecide(v), t.r, Sweeping({Entry(j, e)}, [], [it]));
    RunOne(t1.r, it);
    t' := Act(g, t1, k, SweepExec, RunItem(t1.r, it).(started := t1.r.started - {Entry(j, e)}), Idle);
  }

  /** The cleanup of the intermediate queue does the same for a job nobody has started. */
  lemma ServeStuck(g: Journey, t: System, k: ClientId, j: JobId) returns (t': System)
    requires Ready(g, t, k, j) && j in t.r.intermediate && forall e :: Entry(j, e) !in t.r.started
    ensures Reaches(g, t') && TakenUp(t', k, j)
  {
    NobodyAttends(t, k, j);
    var t1 := Act(g, t, k, StuckPick(j), t.r, Stuck(j));
    if Later(t1, k, j, Exception) {
      t' := ServeStuckLater(g, t1, k, j);
    } else if Spent(t1, k, j) {
      t' := Act(g, t1, k, StuckResolve(Fails), t1.r.(jobs := t1.r.jobs[j := Failed]), StuckDone(j));
    } else {
      t' := ServeStuckNow(g, t1, k, j);
    }
  }

  lemma ServeStuckNow(g: Journey, t: System, k: ClientId, j: JobId) returns (t': System)
    requires Reaches(g, t) && Alone(t, k) && t.clients[k] == Stuck(j) && j in t.r.jobs && AtOnce(t, k, j, Exception)
    ensures Reaches(g, t') && TakenUp(t', k, j)
  {
    var t1 := Act(g, t, k, StuckResolve(Requeues(false)), Enqueued(t.r, j, false), StuckDone(j));
    var t2 := LeaveStuck(g, t1, k, j);
    assert t2.r.queue[|t2.r.queue| - 1] == j;
    t' := ServeQueued(g, t2, k, j);
  }

  lemma ServeStuckLater(g: Journey, t: System, k: ClientId, j: JobId) returns (t': System)
    requires Reaches(g, t) && Alone(t, k) && t.clients[k] == Stuck(j) && j in t.r.jobs && Later(t, k, j, Exception)
    ensures Reaches(g, t') && TakenUp(t', k, j)
  {
    var t1 := Act(g, t, k, StuckMark, t.r.(jobs := t.r.jobs[j := Scheduled]), StuckMarked(j));
    t' := ServeStuckMarked(g, t1, k, j);
  }

  lemma ServeStuckMarked(g: Journey, t: System, k: ClientId, j: JobId) returns (t': System)
    requires Reaches(g, t) && Alone(t, k) && t.clients[k] == StuckMarked(j) && j in t.r.jobs
    ensures Reaches(g, t') && TakenUp(t', k, j)
  {
    var t1 := ScheduleStuck(g, t, k, j);
    var t2 := LeaveStuck(g, t1, k, j);
    t' := ServeScheduled(g, t2, k, j);
  }

  lemma ScheduleStuck(g: Journey, t: System, k: ClientId, j: JobId) returns (t': System)
    requires Reaches(g, t) && k in t.clients && t.clients[k] == StuckMarked(j) && j in t.r.jobs
    ensures Reaches(g, t')
    ensures Moved(t, t', k, t.r.(jobs := t.r.jobs[j := Scheduled], scheduled := t.r.scheduled + {j}), StuckDone(j))
  {
    var t1 := Act(g, t, k, StuckAdd, t.r.(scheduled := t.r.scheduled + {j}), StuckAdded(j));
    t' := Act(g, t1, k, StuckCommit, t1.r.(jobs := t1.r.jobs[j := Scheduled]), StuckDone(j));
  }

  lemma LeaveStuck(g: Journey, t: System, k: ClientId, j: JobId) returns (t': System)
    requires Reaches(g, t) && k in t.clients && t.clients[k] == StuckDone(j)
    ensures Reaches(g, t') && Moved(t, t', k, t.r.(intermediate := RemoveFirst(t.r.intermediate, j)), Idle)
  {
    t' := Act(g, t, k, StuckRemove, t.r.(intermediate := RemoveFirst(t.r.intermediate, j)), Idle);
  }

  lemma NobodyAttends(t: System, k: ClientId, j: JobId)
    requires Alone(t, k) && t.clients[k].Idle?
    ensures Attending(t.clients, j) == 0
  {
    assert AttendingSet(t.clients, j) == {};
  }

  /** After any run with crashes, once all other clients have died or finished, a saved
      job that is neither over nor waiting for its dependencies is started or given up by
      some further run of any idle client, and that run respects the assumptions. */
  lemma EveryJobCanBeTakenUp(steps: seq<CrashModel.Step>, states: seq<System>, k: ClientId, j: JobId)
    returns (t': System)
    requires Run(steps, states)
    requires var t := states[|steps|];
      && Alone(t, k) && t.clients[k].Idle?
      && j in t.r.jobs && !Terminal(t.r.jobs[j]) && j !in t.r.deferred
    ensures Reaches(Journey(states[|steps|], true), t') && TakenUp(t', k, j)
  {
    var t := states[|steps|];
    var g := Journey(t, true);
    NoJobIsLost(steps, states, j);
    Begin(g);
    if j in t.r.queue {
      t' := ServeQueued(g, t, k, j);
    } else if j in t.r.scheduled {
      t' := ServeScheduled(g, t, k, j);
    } else if e :| Entry(j, e) in t.r.started {
      t' := ServeStarted(g, t, k, j, e);
    } else {
      t' := ServeStuck(g, t, k, j);
    }
  }

  /** Everybody but k has died: nothing in Redis has changed. */
  ghost predicate Deserted(t: System, t': System, k: ClientId) {
    t'.r == t.r && t'.clients.Keys == t.clients.Keys && Alone(t', k) && k in t.clients && t'.clients[k] == t.clients[k]
  }

  /** That can happen at any time. */
  lemma EverybodyCanDie(t: System, k: ClientId) returns (t': System)
    requires k in t.clients
    ensures Reaches(Journey(t, true), t') && Deserted(t, t', k)
  {
    var g := Journey(t, true);
    Begin(g);
    t' := OthersDie(g, t, k, t.clients.Keys - {k});
  }

  lemma {:induction false} OthersDie(g: Journey, t: System, k: ClientId, rest: set<ClientId>) returns (t': System)
    requires Reaches(g, t) && k in t.clients && k !in rest && rest <= t.clients.Keys
    requires forall i :: i in t.clients && i != k && i !in rest ==> t.clients[i].Idle?
    ensures Reaches(g, t') && Deserted(t, t', k)
    decreases rest
  {
    if rest == {} {
      t' := t;
    } else {
      var i :| i in rest;
      var t1 := Act(g, t, i, Crash, t.r, Idle);
      assert t1.r == t.r;
      t' := OthersDie(g, t1, k, rest - {i});
    }
  }
}
