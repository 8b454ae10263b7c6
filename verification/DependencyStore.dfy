/** The part of the Redis data that dependency handling reads and writes, the
    decision `Job.dependencies_are_met` takes on it, and the transactions that
    park a job and wake dependents (rq/queue.py, rq/job.py). */
module DependencyStore {
  import opened Common

  /** The fields of a job hash that matter here. Only `status` ever changes. */
  datatype JobHash = JobHash(
    status: JobStatus,
    origin: QueueName,
    deps: seq<JobId>,
    atFront: bool,
    allowFailures: bool)

  datatype Store = Store(
    jobs: map<JobId, JobHash>,
    dependents: map<JobId, set<JobId>>,
    dependencies: map<JobId, set<JobId>>,
    deferred: map<QueueName, set<JobId>>,
    queues: map<QueueName, seq<JobId>>)

  /** SMEMBERS: a missing key is an empty set. */
  function Members(m: map<nat, set<JobId>>, k: nat): set<JobId> {
    if k in m then m[k] else {}
  }

  predicate IsFinished(s: Store, d: JobId) {
    d in s.jobs && s.jobs[d].status == Finished
  }

  /** A dependency that exists and is not FINISHED keeps a job waiting. */
  predicate Pending(s: Store, d: JobId) {
    d in s.jobs && s.jobs[d].status != Finished
  }

  predicate HasPending(s: Store, deps: seq<JobId>) {
    exists d :: d in deps && Pending(s, d)
  }

  /** A dependency other than the waking parent: missing hashes count as met. */
  predicate Satisfied(s: Store, d: JobId, allowFailures: bool) {
    d in s.jobs ==>
      || s.jobs[d].status == Finished
      || (allowFailures && s.jobs[d].status == Failed)
  }

  /** The statuses of the waking parent for which a dependent is left alone. */
  predicate Blocked(st: JobStatus, allowFailures: bool) {
    st == Canceled || st == Stopped || (st == Failed && !allowFailures)
  }

  /** `dependencies_are_met(parent_job=p)` evaluated on one consistent store, with `st`
      for the parent's status. */
  predicate MetFor(s: Store, p: JobId, st: JobStatus, c: JobId)
    requires c in s.jobs
  {
    && !Blocked(st, s.jobs[c].allowFailures)
    && forall d :: d in Members(s.dependencies, c) && d != p ==> Satisfied(s, d, s.jobs[c].allowFailures)
  }

  /** That is: the parent is neither canceled nor stopped, and failed only if the job
      allows failures; each other dependency is gone, finished, or failed where allowed. */
  lemma MetForExactly(s: Store, p: JobId, st: JobStatus, c: JobId)
    requires c in s.jobs
    ensures MetFor(s, p, st, c) <==>
      && st != Canceled && st != Stopped && (st == Failed ==> s.jobs[c].allowFailures)
      && forall d :: d in Members(s.dependencies, c) && d != p && d in s.jobs ==>
           s.jobs[d].status == Finished || (s.jobs[d].status == Failed && s.jobs[c].allowFailures)
  {
  }

  predicate Met(s: Store, p: JobId, c: JobId)
    requires p in s.jobs && c in s.jobs
  {
    MetFor(s, p, s.jobs[p].status, c)
  }

  /** The parent's status as a scan takes it: read from Redis, unless the caller goes by
      its own copy (`refresh_job_status=False`). */
  function StatusSeen(s: Store, x: JobId, local: Option<JobStatus>): JobStatus
    requires x in s.jobs
  {
    if local.Some? then local.value else s.jobs[x].status
  }

  /** `_enqueue_async_job` inside a transaction, writing the client's copy `h`. */
  function Enqueue(s: Store, c: JobId, h: JobHash, front: bool): Store {
    s.(deferred := s.deferred[h.origin := Members(s.deferred, h.origin) - {c}],
       jobs := s.jobs[c := h.(status := Queued)],
       queues := s.queues[h.origin := Push(ListAt(s.queues, h.origin), c, front)])
  }

  /** The wake-up loop of `enqueue_dependents` over the chosen jobs. */
  function EnqueueAll(s: Store, hs: map<JobId, JobHash>, order: seq<JobId>): Store
    requires forall c :: c in order ==> c in hs
    decreases |order|
  {
    if order == [] then s
    else EnqueueAll(Enqueue(s, order[0], hs[order[0]], hs[order[0]].atFront), hs, order[1..])
  }

  /** DEL when every dependent was chosen, SREM of the chosen ones otherwise. */
  function DropDependents(m: map<JobId, set<JobId>>, p: JobId, order: seq<JobId>): map<JobId, set<JobId>> {
    if order == [] then m else m[p := Members(m, p) - ToSet(order)]
  }

  /** The transaction `enqueue_dependents` builds. */
  function Wake(s: Store, hs: map<JobId, JobHash>, p: JobId, order: seq<JobId>): Store
    requires forall c :: c in order ==> c in hs
  {
    var s1 := EnqueueAll(s, hs, order);
    s1.(dependents := DropDependents(s.dependents, p, order))
  }

  /** The whole transaction of `handle_job_success`: wake-ups, then FINISHED. */
  function Finish(s: Store, hs: map<JobId, JobHash>, p: JobId, order: seq<JobId>): Store
    requires p in s.jobs
    requires forall c :: c in order ==> c in hs
  {
    var s1 := Wake(s, hs, p, order);
    EnqueueAllEffect(s, hs, order);
    s1.(jobs := s1.jobs[p := s1.jobs[p].(status := Finished)])
  }

  /** `register_dependency` adds the job to the dependents set of each dependency. */
  function AddDependents(m: map<JobId, set<JobId>>, c: JobId, deps: seq<JobId>): map<JobId, set<JobId>>
    decreases |deps|
  {
    if deps == [] then m
    else AddDependents(m[deps[0] := Members(m, deps[0]) + {c}], c, deps[1..])
  }

  /** The transaction of `setup_dependencies` for a job that has to wait. */
  function Park(s: Store, c: JobId, h: JobHash): Store {
    s.(jobs := s.jobs[c := h.(status := Deferred)],
       deferred := s.deferred[h.origin := Members(s.deferred, h.origin) + {c}],
       dependents := AddDependents(s.dependents, c, h.deps),
       dependencies := s.dependencies[c := Members(s.dependencies, c) + ToSet(h.deps)])
  }

  // ---------- What the transactions do, key by key ----------

  lemma {:induction false} EnqueueAllEffect(s: Store, hs: map<JobId, JobHash>, order: seq<JobId>)
    requires forall c :: c in order ==> c in hs
    ensures var t := EnqueueAll(s, hs, order);
      && t.dependents == s.dependents
      && t.dependencies == s.dependencies
      && t.jobs.Keys == s.jobs.Keys + ToSet(order)
      && (forall c :: c in order ==> t.jobs[c] == hs[c].(status := Queued))
      && (forall j :: j in s.jobs && j !in order ==> t.jobs[j] == s.jobs[j])
    decreases |order|
  {
    if order != [] {
      EnqueueAllEffect(Enqueue(s, order[0], hs[order[0]], hs[order[0]].atFront), hs, order[1..]);
      assert forall j :: j in order <==> j == order[0] || j in order[1..];
    }
  }

  /** A woken job leaves the deferred registry of its origin, and nothing else does. */
  lemma {:induction false} EnqueueAllDeferred(
    s: Store, hs: map<JobId, JobHash>, order: seq<JobId>, q: QueueName, j: JobId)
    requires forall c :: c in order ==> c in hs
    ensures j in Members(EnqueueAll(s, hs, order).deferred, q) <==>
      j in Members(s.deferred, q) && !(j in order && hs[j].origin == q)
    decreases |order|
  {
    if order != [] {
      EnqueueAllDeferred(Enqueue(s, order[0], hs[order[0]], hs[order[0]].atFront), hs, order[1..], q, j);
      assert j in order <==> j == order[0] || j in order[1..];
    }
  }

  /** Every woken job is pushed once, onto its own origin queue and no other. */
  lemma {:induction false} EnqueueAllQueues(
    s: Store, hs: map<JobId, JobHash>, order: seq<JobId>, q: QueueName, j: JobId)
    requires forall c :: c in order ==> c in hs
    requires NoDup(order)
    ensures multiset(ListAt(EnqueueAll(s, hs, order).queues, q))[j] ==
      multiset(ListAt(s.queues, q))[j] + (if j in order && hs[j].origin == q then 1 else 0)
    decreases |order|
  {
    if order != [] {
      NoDupSplit(order, 0);
      EnqueueAllQueues(Enqueue(s, order[0], hs[order[0]], hs[order[0]].atFront), hs, order[1..], q, j);
      assert j in order <==> j == order[0] || j in order[1..];
    }
  }

  /** The woken jobs of one origin that go to the front, or to the back, in order. */
  function SentTo(hs: map<JobId, JobHash>, order: seq<JobId>, q: QueueName, front: bool): seq<JobId>
    requires forall c :: c in order ==> c in hs
  {
    if order == [] then []
    else
      (if hs[order[0]].origin == q && hs[order[0]].atFront == front then [order[0]] else [])
      + SentTo(hs, order[1..], q, front)
  }

  /** Each queue keeps its jobs together: woken jobs with the front flag go before them,
      the last one first, and the others behind them in waking order. */
  lemma {:induction false} EnqueueAllOrder(s: Store, hs: map<JobId, JobHash>, order: seq<JobId>, q: QueueName)
    requires forall c :: c in order ==> c in hs
    ensures ListAt(EnqueueAll(s, hs, order).queues, q)
         == Reverse(SentTo(hs, order, q, true)) + ListAt(s.queues, q) + SentTo(hs, order, q, false)
    decreases |order|
  {
    if order == [] {
      assert Reverse(SentTo(hs, order, q, true)) == [];
    } else {
      EnqueueAllOrder(Enqueue(s, order[0], hs[order[0]], hs[order[0]].atFront), hs, order[1..], q);
      FirstFits(s, hs, order, q);
    }
  }

  lemma FirstFits(s: Store, hs: map<JobId, JobHash>, order: seq<JobId>, q: QueueName)
    requires order != [] && forall c :: c in order ==> c in hs
    ensures Reverse(SentTo(hs, order[1..], q, true))
        + ListAt(Enqueue(s, order[0], hs[order[0]], hs[order[0]].atFront).queues, q) + SentTo(hs, order[1..], q, false)
      == Reverse(SentTo(hs, order, q, true)) + ListAt(s.queues, q) + SentTo(hs, order, q, false)
  {
    var c, h := order[0], hs[order[0]];
    var fronts, backs := SentTo(hs, order[1..], q, true), SentTo(hs, order[1..], q, false);
    if h.origin == q {
      OnePush(fronts, backs, ListAt(s.queues, q), c, h.atFront);
    } else {
      assert [] + fronts == fronts && [] + backs == backs;
    }
  }

  /** Only the immutable fields of the client's copies matter. */
  lemma {:induction false} EnqueueAllCopies(
    s: Store, hs: map<JobId, JobHash>, hs': map<JobId, JobHash>, order: seq<JobId>)
    requires forall c :: c in order ==> c in hs && c in hs' && SameSpec(hs[c], hs'[c])
    ensures EnqueueAll(s, hs, order) == EnqueueAll(s, hs', order)
    decreases |order|
  {
    if order != [] {
      EnqueueAllCopies(Enqueue(s, order[0], hs[order[0]], hs[order[0]].atFront), hs, hs', order[1..]);
    }
  }

  predicate SameSpec(h: JobHash, h': JobHash) {
    h.(status := Queued) == h'.(status := Queued)
  }

  lemma {:induction false} AddDependentsEffect(m: map<JobId, set<JobId>>, c: JobId, deps: seq<JobId>)
    ensures forall p ::
      Members(AddDependents(m, c, deps), p) == Members(m, p) + (if p in deps then {c} else {})
    decreases |deps|
  {
    if deps != [] {
      AddDependentsEffect(m[deps[0] := Members(m, deps[0]) + {c}], c, deps[1..]);
    }
  }
}
