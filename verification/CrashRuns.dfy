/** Runs of CrashModel.dfy built step by step: each lemma takes a run that has got
    somewhere and makes one client go on. */
module CrashRuns {
  import opened Common
  import opened CrashModel

  /** Where a run starts, and whether it is to respect the assumptions. */
  datatype Journey = Journey(from: System, careful: bool)

  ghost predicate Leads(g: Journey, s: System, step: Step, t: System) {
    && Possible(s, step.client, step.action) && (g.careful ==> Assumed(s, step.client, step.action))
    && t == Next(s, step.client, step.action)
  }

  /** A run the code can make. */
  ghost predicate Going(g: Journey, steps: seq<Step>, states: seq<System>) {
    && |states| == |steps| + 1 && states[0] == g.from
    && forall k {:trigger steps[k]} :: 0 <= k < |steps| ==> Leads(g, states[k], steps[k], states[k + 1])
  }

  ghost predicate Reaches(g: Journey, t: System) {
    exists steps, states :: Going(g, steps, states) && states[|steps|] == t
  }

  lemma Then(g: Journey, t: System, i: ClientId, a: Action) returns (t': System)
    requires Reaches(g, t) && Possible(t, i, a) && (g.careful ==> Assumed(t, i, a))
    ensures t' == Next(t, i, a) && Reaches(g, t')
  {
    var steps, states :| Going(g, steps, states) && states[|steps|] == t;
    t' := Next(t, i, a);
    RunSnoc(g, steps, states, i, a, t');
  }

  lemma RunSnoc(g: Journey, steps: seq<Step>, states: seq<System>, i: ClientId, a: Action, t: System)
    requires Going(g, steps, states) && Leads(g, states[|steps|], Step(i, a), t)
    ensures Going(g, steps + [Step(i, a)], states + [t])
  {
    var steps', states' := steps + [Step(i, a)], states + [t];
    forall k | 0 <= k < |steps'| ensures Leads(g, states'[k], steps'[k], states'[k + 1]) {
      if k < |steps| { assert steps'[k] == steps[k]; }
    }
  }

  lemma Begin(g: Journey)
    ensures Reaches(g, g.from)
  {
    assert Going(g, [], [g.from]);
    assert [g.from][0] == g.from;
  }

  function ParentOf(s: System, i: ClientId): Option<Parent> {
    if i in s.parents then Some(s.parents[i]) else None
  }

  /** Nothing but the data has changed for any client but k. */
  ghost predicate OthersSame(s: System, t: System, k: ClientId) {
    && t.atOnce == s.atOnce && t.repeatAtOnce == s.repeatAtOnce
    && forall m :: m != k ==> Copies(t, m) == Copies(s, m) && ParentOf(t, m) == ParentOf(s, m)
  }

  /** Client k has moved on to `pc` and left `data`, counters aside; all else is as it
      was. */
  ghost predicate Moved(s: System, t: System, k: ClientId, data: Redis, pc: Client) {
    t.r == data.(left := t.r.left) && t.clients == s.clients[k := pc] && OthersSame(s, t, k)
  }

  lemma Act(g: Journey, t: System, k: ClientId, a: Action, data: Redis, pc: Client) returns (t': System)
    requires Reaches(g, t) && Possible(t, k, a) && (g.careful ==> Assumed(t, k, a))
    requires NextRedis(t, k, a) == data && NextClient(t, k, a) == pc
    ensures Reaches(g, t') && Moved(t, t', k, data, pc)
    ensures Copies(t', k) == NextCopies(t, k, a)
    ensures SavedLeft(t, k, a) == map[] ==> t'.r.left == t.r.left
    ensures a.CommitSchedule? ==> t'.parents == t.parents
    ensures t'.execs == t.execs + if a.PrepareExecution? then {a.e} else {}
  {
    t' := Then(g, t, k, a);
    if SavedLeft(t, k, a) == map[] { SavesNothing(t, k, a); }
  }

  lemma SavesNothing(t: System, k: ClientId, a: Action)
    requires Possible(t, k, a) && SavedLeft(t, k, a) == map[]
    ensures Next(t, k, a).r.left == t.r.left
  {
    assert t.r.left + map[] == t.r.left;
  }

  /** Everything but client k is as it was. */
  ghost predicate OnlyMoved(s: System, t: System, k: ClientId) {
    k in s.clients && k in t.clients && t.clients == s.clients[k := t.clients[k]] && OthersSame(s, t, k)
  }

  // ---------- Single clients going on ----------

  lemma Die(g: Journey, t: System, i: ClientId) returns (t': System)
    requires Reaches(g, t) && i in t.clients
    ensures Reaches(g, t') && Moved(t, t', i, t.r, Idle)
  {
    t' := Act(g, t, i, Crash, t.r, Idle);
  }

  /** One id moved by a scheduler. */
  lemma DrainOne(g: Journey, t: System, k: ClientId, j: JobId) returns (s': System)
    requires Reaches(g, t) && k in t.clients && t.clients[k].Idle? && j in t.r.jobs && j in t.r.scheduled
    requires g.careful ==> NotPending(t, {j})
    ensures Reaches(g, s') && OnlyMoved(t, s', k) && s'.clients[k].Idle? && s'.execs == t.execs
    ensures s'.r == t.r.(left := s'.r.left, jobs := t.r.jobs[j := Queued], queue := t.r.queue + [j],
                         scheduled := t.r.scheduled - {j})
  {
    assert ToSet([j]) == {j} && ToSet([j]) * t.r.jobs.Keys == {j};
    var t1 := Act(g, t, k, DrainRead([j]), t.r, Draining([j], {j}));
    PushOneJob(t1.r, j);
    s' := Act(g, t1, k, DrainExec({}), Drained(t1.r, [j], {j}, {}), Idle);
  }

  lemma PushOneJob(r: Redis, j: JobId)
    requires j in r.jobs
    ensures Drained(r, [j], {j}, {})
         == r.(jobs := r.jobs[j := Queued], queue := r.queue + [j], scheduled := r.scheduled - {j})
  {
    assert ToSet([j]) == {j} && {j} * {j} == {j} && [j][1..] == [];
    assert PushAll(r.queue + [j], [], {j}, {}) == r.queue + [j];
    assert (map x | x in r.jobs.Keys + {j} :: if x in {j} then Queued else r.jobs[x]) == r.jobs[j := Queued];
  }

  lemma Prepare(g: Journey, t: System, k: ClientId, j: JobId, e: nat) returns (t': System)
    requires Reaches(g, t) && k in t.clients && t.clients[k] == Dequeued(j) && j in t.r.jobs && e !in t.execs
    ensures Reaches(g, t') && Moved(t, t', k, t.r.(started := t.r.started + {Entry(j, e)}), Prepared(j, e))
    ensures Copy(t', k, j) == Left(t.r, j)
  {
    t' := Act(g, t, k, PrepareExecution(e), t.r.(started := t.r.started + {Entry(j, e)}), Prepared(j, e));
  }

  lemma FinishWork(g: Journey, t: System, k: ClientId, j: JobId, e: nat) returns (t': System)
    requires Reaches(g, t) && k in t.clients && t.clients[k] == Running(j, e)
    ensures Reaches(g, t')
    ensures Moved(t, t', k, t.r.(jobs := t.r.jobs[j := Finished], started := t.r.started - {Entry(j, e)}), Idle)
  {
    t' := Act(g, t, k, Succeed, t.r.(jobs := t.r.jobs[j := Finished], started := t.r.started - {Entry(j, e)}), Idle);
  }

  lemma ReadEntry(g: Journey, t: System, k: ClientId, j: JobId, e: nat) returns (t': System)
    requires Reaches(g, t) && k in t.clients && t.clients[k].Idle? && Entry(j, e) in t.r.started && j in t.r.jobs
    requires g.careful ==> Unowned(t, {Entry(j, e)})
    ensures Reaches(g, t') && OnlyMoved(t, t', k) && t'.r == t.r && t'.execs == t.execs
    ensures t'.clients[k] == Sweeping({Entry(j, e)}, [j], [])
  {
    assert ToSet([j]) == set en | en in {Entry(j, e)} && en.job in t.r.jobs :: en.job;
    t' := Act(g, t, k, SweepRead({Entry(j, e)}, [j]), t.r, Sweeping({Entry(j, e)}, [j], []));
  }

  lemma FetchForSweep(g: Journey, t: System, k: ClientId, j: JobId, e: nat) returns (t': System)
    requires Reaches(g, t) && k in t.clients && t.clients[k] == Sweeping({Entry(j, e)}, [j], [])
    ensures Reaches(g, t') && Moved(t, t', k, t.r, SweepFetched({Entry(j, e)}, [j], []))
    ensures t'.r == t.r && t'.execs == t.execs && Copy(t', k, j) == Left(t.r, j)
  {
    assert [j][0] == j;
    t' := Act(g, t, k, SweepFetch, t.r, SweepFetched({Entry(j, e)}, [j], []));
  }

  lemma MarkForSweep(g: Journey, t: System, k: ClientId, j: JobId, e: nat) returns (t': System)
    requires Reaches(g, t) && k in t.clients && t.clients[k] == SweepFetched({Entry(j, e)}, [j], [])
    requires Later(t, k, j, Exception)
    ensures Reaches(g, t') && t'.execs == t.execs
    ensures Moved(t, t', k, t.r.(jobs := t.r.jobs[j := Scheduled]), SweepMarked({Entry(j, e)}, [j], []))
  {
    assert [j][0] == j;
    t' := Act(g, t, k, SweepMark, t.r.(jobs := t.r.jobs[j := Scheduled]), SweepMarked({Entry(j, e)}, [j], []));
  }

  lemma AddForSweep(g: Journey, t: System, k: ClientId, j: JobId, e: nat) returns (t': System)
    requires Reaches(g, t) && k in t.clients && t.clients[k] == SweepMarked({Entry(j, e)}, [j], [])
    ensures Reaches(g, t') && t'.execs == t.execs
    ensures Moved(t, t', k, t.r.(scheduled := t.r.scheduled + {j}),
                  Sweeping({Entry(j, e)}, [], [PipeItem(j, Reschedules)]))
  {
    assert [j][0] == j && [j][1..] == [] && [] + [PipeItem(j, Reschedules)] == [PipeItem(j, Reschedules)];
    t' := Act(g, t, k, SweepAdd, t.r.(scheduled := t.r.scheduled + {j}),
              Sweeping({Entry(j, e)}, [], [PipeItem(j, Reschedules)]));
  }

  lemma EndSweep(g: Journey, t: System, k: ClientId, j: JobId, e: nat) returns (t': System)
    requires Reaches(g, t) && k in t.clients && t.clients[k] == Sweeping({Entry(j, e)}, [], [PipeItem(j, Reschedules)])
    ensures Reaches(g, t') && t'.execs == t.execs
    ensures Moved(t, t', k, t.r.(jobs := t.r.jobs[j := Scheduled], started := t.r.started - {Entry(j, e)}), Idle)
  {
    RunOne(t.r, PipeItem(j, Reschedules));
    t' := Act(g, t, k, SweepExec,
              t.r.(jobs := t.r.jobs[j := Scheduled], started := t.r.started - {Entry(j, e)}), Idle);
  }

  lemma RunOne(r: Redis, it: PipeItem)
    ensures RunPipe(r, [it]) == RunItem(r, it)
  {
    assert [it][1..] == [];
    assert RunPipe(RunItem(r, it), []) == RunItem(r, it);
  }
}
