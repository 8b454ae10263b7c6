/** Dependency handling with every transaction atomic: what the interleaved
    protocol of WatchedProtocol.dfy refines, and the invariants of its runs. */
module DependencyProtocol {
  import opened Common
  import opened DependencyStore

  /** The Redis data plus what has happened so far.
      - cleared: jobs an enqueuer found free to run but has not pushed yet
      - complete: jobs all of whose dependencies existed when the enqueuer looked
        at them, and that were not canceled while DEFERRED
      - pushes: how often the protocol put a job on its queue
      - successes: how often a worker committed the success of a job */
  datatype Protocol = Protocol(
    store: Store,
    cleared: map<JobId, JobHash>,
    complete: set<JobId>,
    pushes: map<JobId, nat>,
    successes: map<JobId, nat>)

  function Pushes(p: Protocol, c: JobId): nat {
    if c in p.pushes then p.pushes[c] else 0
  }

  function Successes(p: Protocol, x: JobId): nat {
    if x in p.successes then p.successes[x] else 0
  }

  /** One committed transaction, or a change made by the rest of the system. A Rescan
      looks at the dependents of a job that has failed; the cleanup of abandoned jobs does
      so with its own copy, already FAILED, before Redis shows that status. */
  datatype Event =
    | ParkJob(c: JobId, h: JobHash)
    | ClearJob(c: JobId, h: JobHash)
    | PushCleared(c: JobId, front: bool)
    | FinishJob(p: JobId, order: seq<JobId>)
    | Rescan(p: JobId, order: seq<JobId>, local: Option<JobStatus>)
    | SetStatus(j: JobId, st: JobStatus)
    | SetQueues(qs: map<QueueName, seq<JobId>>)

  /** The dependents one wake-up transaction picks. A job that is still DEFERRED
      and whose dependencies are met must be picked. For one that is not DEFERRED
      any more the outcome is left open: the CANCELED test reads an unwatched hash. */
  ghost predicate ValidOrderFor(s: Store, p: JobId, st: JobStatus, order: seq<JobId>) {
    && NoDup(order)
    && (forall c :: c in order ==> c in Members(s.dependents, p) && c in s.jobs && MetFor(s, p, st, c))
    && (forall c :: c in Members(s.dependents, p) && c in s.jobs && s.jobs[c].status == Deferred && MetFor(s, p, st, c)
          ==> c in order)
  }

  ghost predicate ValidOrder(s: Store, p: JobId, order: seq<JobId>)
    requires p in s.jobs
  {
    ValidOrderFor(s, p, s.jobs[p].status, order)
  }

  ghost predicate Enabled(p: Protocol, e: Event) {
    match e
    case ParkJob(c, h) =>
      c !in p.store.jobs && c !in p.cleared && HasPending(p.store, h.deps)
    case ClearJob(c, h) =>
      c !in p.store.jobs && c !in p.cleared && !HasPending(p.store, h.deps)
    case PushCleared(c, _) =>
      c !in p.store.jobs && c in p.cleared
    case FinishJob(x, order) =>
      x in p.store.jobs && p.store.jobs[x].status != Deferred && ValidOrder(p.store, x, order)
    case Rescan(x, order, local) =>
      && x in p.store.jobs && order != [] && (local == None || local == Some(Failed))
      && ValidOrderFor(p.store, x, StatusSeen(p.store, x, local), order)
    case SetStatus(j, st) =>
      && j in p.store.jobs && st != Finished && st != Deferred
      && (p.store.jobs[j].status == Deferred ==> st == Canceled)
    case SetQueues(_) => true
  }

  function CountPushes(m: map<JobId, nat>, order: seq<JobId>): map<JobId, nat> {
    map c | c in m.Keys + ToSet(order) ::
      (if c in m then m[c] else 0) + (if c in order then 1 else 0)
  }

  function Examined(p: Protocol, c: JobId, deps: seq<JobId>): set<JobId> {
    if forall d :: d in deps ==> d in p.store.jobs then p.complete + {c} else p.complete
  }

  ghost function Apply(p: Protocol, e: Event): Protocol
    requires Enabled(p, e)
  {
    var s := p.store;
    match e
    case ParkJob(c, h) =>
      p.(store := Park(s, c, h), complete := Examined(p, c, h.deps))
    case ClearJob(c, h) =>
      p.(cleared := p.cleared[c := h], complete := Examined(p, c, h.deps))
    case PushCleared(c, front) =>
      p.(store := Enqueue(s, c, p.cleared[c], front),
         cleared := p.cleared - {c},
         pushes := CountPushes(p.pushes, [c]))
    case FinishJob(x, order) =>
      p.(store := Finish(s, s.jobs, x, order),
         pushes := CountPushes(p.pushes, order),
         successes := CountPushes(p.successes, [x]))
    case Rescan(x, order, _) =>
      p.(store := Wake(s, s.jobs, x, order), pushes := CountPushes(p.pushes, order))
    case SetStatus(j, st) =>
      var h := s.jobs[j];
      var d := if h.status == Deferred then s.deferred[h.origin := Members(s.deferred, h.origin) - {j}] else s.deferred;
      p.(store := s.(jobs := s.jobs[j := h.(status := st)], deferred := d),
         complete := if h.status == Deferred then p.complete - {j} else p.complete)
    case SetQueues(qs) =>
      p.(store := s.(queues := qs))
  }

  const EmptyStore := Store(map[], map[], map[], map[], map[])
  const Start := Protocol(EmptyStore, map[], {}, map[], map[])

  /** A serial run: the events applied one after the other. */
  ghost predicate Serial(p: Protocol, es: seq<Event>, p': Protocol)
    decreases |es|
  {
    if es == [] then p' == p
    else Enabled(p, es[0]) && Serial(Apply(p, es[0]), es[1..], p')
  }

  // ---------- What callers and operators must not do ----------

  /** The worker finds its own job neither canceled, stopped nor marked failed. */
  ghost predicate CleanFinish(p: Protocol, e: Event) {
    e.FinishJob? && e.p in p.store.jobs ==>
      var st := p.store.jobs[e.p].status; st != Canceled && st != Stopped && st != Failed
  }

  /** A re-examination after a failure still finds that job failed or stopped. */
  ghost predicate CleanRescan(p: Protocol, e: Event) {
    e.Rescan? && e.p in p.store.jobs ==>
      var st := StatusSeen(p.store, e.p, e.local); st == Canceled || st == Stopped || st == Failed
  }

  /** A job succeeds once. */
  ghost predicate FirstFinish(p: Protocol, e: Event) {
    e.FinishJob? ==> Successes(p, e.p) == 0
  }

  /** The jobs a transaction wakes. */
  function Wakes(e: Event): seq<JobId> {
    match e
    case FinishJob(_, order) => order
    case Rescan(_, order, _) => order
    case _ => []
  }

  /** No job that has already finished is woken again, canceled, or put back by anyone. */
  ghost predicate FinishedStay(p: Protocol, e: Event) {
    && (forall c :: c in Wakes(e) ==> !IsFinished(p.store, c))
    && (e.SetStatus? ==> !IsFinished(p.store, e.j))
  }

  ghost predicate Orderly(p: Protocol, e: Event) {
    CleanFinish(p, e) && CleanRescan(p, e) && FirstFinish(p, e) && FinishedStay(p, e)
  }

  ghost predicate OrderlyRun(p: Protocol, es: seq<Event>)
    decreases |es|
  {
    es == [] || (Enabled(p, es[0]) && Orderly(p, es[0]) && OrderlyRun(Apply(p, es[0]), es[1..]))
  }

  // ---------- Invariants ----------

  /** Dependents sets only name saved jobs that really depend on the key's owner,
      and whose own dependencies set is exactly the list in their hash. */
  ghost predicate Registered(s: Store) {
    forall p, c :: c in Members(s.dependents, p) ==>
      && c in s.jobs
      && p in s.jobs[c].deps
      && Members(s.dependencies, c) == ToSet(s.jobs[c].deps)
  }

  /** A DEFERRED job is in its deferred registry and in every dependents set. */
  ghost predicate DeferredIndexed(s: Store) {
    forall c :: c in s.jobs && s.jobs[c].status == Deferred ==>
      && c in Members(s.deferred, s.jobs[c].origin)
      && (forall d :: d in s.jobs[c].deps ==> c in Members(s.dependents, d))
  }

  ghost predicate FreshDependencies(s: Store) {
    forall c :: c !in s.jobs ==> Members(s.dependencies, c) == {}
  }

  /** A DEFERRED job still waits for something that can finish. */
  ghost predicate NoLostWakeUp(s: Store) {
    forall c :: c in s.jobs && s.jobs[c].status == Deferred ==> HasPending(s, s.jobs[c].deps)
  }

  ghost predicate AllFinished(s: Store, deps: seq<JobId>) {
    forall d :: d in deps ==> IsFinished(s, d)
  }

  /** A job whose dependencies all existed when it was examined is pushed once
      all of them have finished: not before, and not again. */
  ghost predicate ExactlyOnce(p: Protocol) {
    && (forall c :: c in p.complete && c in p.cleared ==> AllFinished(p.store, p.cleared[c].deps))
    && (forall c :: c in p.complete ==> c in p.cleared || c in p.store.jobs)
    && (forall c :: c in p.complete && c in p.store.jobs ==> OnceAllFinished(p.store, c, Pushes(p, c)))
  }

  /** n is the number of pushes of c so far. */
  ghost predicate OnceAllFinished(s: Store, c: JobId, n: nat) {
    && c in s.jobs
    && (forall d :: d in s.jobs[c].deps ==> d in s.jobs)
    && (!s.jobs[c].allowFailures ==>
          && n == (if AllFinished(s, s.jobs[c].deps) then 1 else 0)
          && (n == 0 <==> s.jobs[c].status == Deferred))
  }

  /** The counts fit the jobs there are. */
  ghost predicate Accounted(p: Protocol) {
    && (forall c :: c in p.cleared ==> c !in p.store.jobs)
    && (forall c :: c !in p.store.jobs ==> Pushes(p, c) == 0)
    && (forall x :: IsFinished(p.store, x) ==> Successes(p, x) > 0)
  }

  // ---------- The store after a wake-up, as relations between stores ----------

  function WokenStatus(s: Store, x: JobId, finishing: bool, order: seq<JobId>, j: JobId): JobStatus
    requires j in s.jobs
  {
    if finishing && j == x then Finished else if j in order then Queued else s.jobs[j].status
  }

  ghost predicate Woken(s: Store, t: Store, x: JobId, finishing: bool, order: seq<JobId>) {
    && t.jobs.Keys == s.jobs.Keys
    && t.dependencies == s.dependencies
    && (forall j :: j in s.jobs ==>
          SameSpec(t.jobs[j], s.jobs[j]) && t.jobs[j].status == WokenStatus(s, x, finishing, order, j))
    && (forall p :: Members(t.dependents, p) == Members(s.dependents, p) - (if p == x then ToSet(order) else {}))
    && (forall j :: j in s.jobs && j !in order && j in Members(s.deferred, s.jobs[j].origin) ==>
          j in Members(t.deferred, s.jobs[j].origin))
  }

  lemma WakeIsWoken(s: Store, x: JobId, order: seq<JobId>)
    requires forall c :: c in order ==> c in s.jobs
    ensures Woken(s, Wake(s, s.jobs, x, order), x, false, order)
  {
    EnqueueAllEffect(s, s.jobs, order);
    forall j | j in s.jobs && j !in order && j in Members(s.deferred, s.jobs[j].origin)
      ensures j in Members(Wake(s, s.jobs, x, order).deferred, s.jobs[j].origin)
    {
      EnqueueAllDeferred(s, s.jobs, order, s.jobs[j].origin, j);
    }
  }

  lemma FinishIsWoken(s: Store, x: JobId, order: seq<JobId>)
    requires x in s.jobs && forall c :: c in order ==> c in s.jobs
    ensures Woken(s, Finish(s, s.jobs, x, order), x, true, order)
  {
    WakeIsWoken(s, x, order);
  }

  ghost predicate ParkedIn(s: Store, t: Store, c: JobId, h: JobHash) {
    && t.jobs == s.jobs[c := h.(status := Deferred)]
    && (forall p :: Members(t.dependents, p) == Members(s.dependents, p) + (if p in h.deps then {c} else {}))
    && (forall j :: Members(t.dependencies, j) ==
          if j == c then Members(s.dependencies, c) + ToSet(h.deps) else Members(s.dependencies, j))
    && (forall q :: Members(t.deferred, q) == Members(s.deferred, q) + (if q == h.origin then {c} else {}))
  }

  lemma ParkIsParked(s: Store, c: JobId, h: JobHash)
    ensures ParkedIn(s, Park(s, c, h), c, h)
  {
    AddDependentsEffect(s.dependents, c, h.deps);
  }

  // ---------- Structure is kept ----------

  ghost predicate StoreStructure(s: Store) {
    Registered(s) && DeferredIndexed(s) && FreshDependencies(s)
  }

  lemma WokenStructure(s: Store, t: Store, x: JobId, finishing: bool, order: seq<JobId>)
    requires StoreStructure(s) && Woken(s, t, x, finishing, order)
    ensures StoreStructure(t)
  {
    forall p, c | c in Members(t.dependents, p)
      ensures c in t.jobs && p in t.jobs[c].deps && Members(t.dependencies, c) == ToSet(t.jobs[c].deps)
    {
      assert c in Members(s.dependents, p);
    }
    forall c | c in t.jobs && t.jobs[c].status == Deferred
      ensures c in Members(t.deferred, t.jobs[c].origin)
      ensures forall d :: d in t.jobs[c].deps ==> c in Members(t.dependents, d)
    {
      assert c !in order && s.jobs[c].status == Deferred;
    }
  }

  lemma ParkedStructure(s: Store, t: Store, c: JobId, h: JobHash)
    requires StoreStructure(s) && c !in s.jobs && ParkedIn(s, t, c, h)
    ensures StoreStructure(t)
  {
    forall p, j | j in Members(t.dependents, p)
      ensures j in t.jobs && p in t.jobs[j].deps && Members(t.dependencies, j) == ToSet(t.jobs[j].deps)
    {
      if j != c { assert j in Members(s.dependents, p); }
      else { assert c !in Members(s.dependents, p); }
    }
  }

  lemma StoreStructureKept(p: Protocol, e: Event)
    requires StoreStructure(p.store) && Enabled(p, e)
    ensures StoreStructure(Apply(p, e).store)
  {
    var s, t := p.store, Apply(p, e).store;
    match e
    case ParkJob(c, h) =>
      ParkIsParked(s, c, h);
      ParkedStructure(s, t, c, h);
    case FinishJob(x, order) =>
      FinishIsWoken(s, x, order);
      WokenStructure(s, t, x, true, order);
    case Rescan(x, order, _) =>
      WakeIsWoken(s, x, order);
      WokenStructure(s, t, x, false, order);
    case PushCleared(c, _) =>
      assert Registered(t);
      assert DeferredIndexed(t);
    case SetStatus(j, _) =>
      assert Registered(t);
      assert DeferredIndexed(t);
    case _ =>
  }

  lemma AccountedKept(p: Protocol, e: Event)
    requires Registered(p.store) && Accounted(p) && Enabled(p, e)
    ensures Accounted(Apply(p, e))
  {
    match e
    case FinishJob(x, order) =>
      FinishIsWoken(p.store, x, order);
      WokenAccounted(p, Apply(p, e), x, true, order);
    case Rescan(x, order, _) =>
      WakeIsWoken(p.store, x, order);
      WokenAccounted(p, Apply(p, e), x, false, order);
    case _ =>
      forall x | IsFinished(Apply(p, e).store, x) ensures Successes(p, x) > 0 {
        assert IsFinished(p.store, x);
      }
  }

  lemma WokenAccounted(p: Protocol, p': Protocol, x: JobId, finishing: bool, order: seq<JobId>)
    requires Accounted(p) && Woken(p.store, p'.store, x, finishing, order) && p'.cleared == p.cleared
    requires forall c :: c in order ==> c in p.store.jobs
    requires p'.pushes == CountPushes(p.pushes, order)
    requires p'.successes == if finishing then CountPushes(p.successes, [x]) else p.successes
    ensures Accounted(p')
  {
    forall j | IsFinished(p'.store, j) ensures Successes(p', j) > 0 {
      assert IsFinished(p.store, j) || (finishing && j == x);
    }
  }

  // ---------- No lost wake-up ----------

  lemma PendingKept(s: Store, t: Store, deps: seq<JobId>, d: JobId)
    requires d in deps && Pending(s, d)
    requires d in t.jobs && (t.jobs[d].status == Finished ==> s.jobs[d].status == Finished)
    ensures HasPending(t, deps)
  {
    assert Pending(t, d);
  }

  /** A dependent the finishing transaction leaves DEFERRED waits for another job. */
  lemma StillWaiting(s: Store, t: Store, x: JobId, order: seq<JobId>, c: JobId)
    requires StoreStructure(s) && x in s.jobs && ValidOrder(s, x, order)
    requires Woken(s, t, x, true, order)
    requires !Blocked(s.jobs[x].status, false)
    requires c in t.jobs && t.jobs[c].status == Deferred
    requires HasPending(s, s.jobs[c].deps)
    ensures HasPending(t, t.jobs[c].deps)
  {
    var deps := s.jobs[c].deps;
    var d :| d in deps && Pending(s, d);
    if d != x {
      PendingKept(s, t, deps, d);
    } else {
      assert c in Members(s.dependents, x);
      assert !Met(s, x, c);
      var d' :| d' in Members(s.dependencies, c) && d' != x && !Satisfied(s, d', s.jobs[c].allowFailures);
      assert d' in deps;
      PendingKept(s, t, deps, d');
    }
  }

  lemma NoLostWakeUpKept(p: Protocol, e: Event)
    requires StoreStructure(p.store) && Enabled(p, e) && CleanFinish(p, e)
    requires NoLostWakeUp(p.store)
    ensures NoLostWakeUp(Apply(p, e).store)
  {
    var s, t := p.store, Apply(p, e).store;
    forall c | c in t.jobs && t.jobs[c].status == Deferred
      ensures HasPending(t, t.jobs[c].deps)
    {
      match e
      case FinishJob(x, order) =>
        FinishIsWoken(s, x, order);
        StillWaiting(s, t, x, order, c);
      case Rescan(x, order, _) =>
        WakeIsWoken(s, x, order);
        var d :| d in s.jobs[c].deps && Pending(s, d);
        PendingKept(s, t, s.jobs[c].deps, d);
      case _ =>
        WaitingUndisturbed(p, e, c);
    }
  }

  lemma WaitingUndisturbed(p: Protocol, e: Event, c: JobId)
    requires Enabled(p, e) && !e.FinishJob? && !e.Rescan? && NoLostWakeUp(p.store)
    requires c in Apply(p, e).store.jobs && Apply(p, e).store.jobs[c].status == Deferred
    ensures HasPending(Apply(p, e).store, Apply(p, e).store.jobs[c].deps)
  {
    var s, t := p.store, Apply(p, e).store;
    var deps := t.jobs[c].deps;
    assert HasPending(s, deps);
    var d :| d in deps && Pending(s, d);
    PendingKept(s, t, deps, d);
  }

  // ---------- Exactly one push ----------

  /** While something is unfinished, no wake-up of another job picks c. */
  lemma NotPickedEarly(s: Store, x: JobId, st: JobStatus, order: seq<JobId>, c: JobId)
    requires StoreStructure(s) && ValidOrderFor(s, x, st, order)
    requires c in order && !s.jobs[c].allowFailures
    requires forall d :: d in s.jobs[c].deps ==> d in s.jobs
    ensures x in s.jobs[c].deps && !Blocked(st, false)
    ensures forall d :: d in s.jobs[c].deps && d != x ==> IsFinished(s, d)
  {
    assert c in Members(s.dependents, x);
  }

  lemma OncePerFinish(s: Store, t: Store, x: JobId, order: seq<JobId>, c: JobId, n: nat)
    requires StoreStructure(s) && x in s.jobs && ValidOrder(s, x, order)
    requires Woken(s, t, x, true, order) && forall j :: j in order ==> !IsFinished(s, j)
    requires !Blocked(s.jobs[x].status, false) && !IsFinished(s, x) && s.jobs[x].status != Deferred
    requires OnceAllFinished(s, c, n)
    ensures OnceAllFinished(t, c, n + if c in order then 1 else 0)
  {
    var deps := s.jobs[c].deps;
    if !s.jobs[c].allowFailures {
      if c in order {
        NotPickedEarly(s, x, s.jobs[x].status, order, c);
        assert AllFinished(t, deps);
      } else if x in deps {
        StillUnfinished(s, t, x, order, c);
      } else {
        SameFinished(s, t, x, true, order, deps);
      }
    }
  }

  lemma SameFinished(s: Store, t: Store, x: JobId, finishing: bool, order: seq<JobId>, deps: seq<JobId>)
    requires Woken(s, t, x, finishing, order) && (finishing ==> x !in deps)
    requires forall j :: j in order ==> !IsFinished(s, j)
    ensures AllFinished(t, deps) <==> AllFinished(s, deps)
  {
    forall d | d in deps ensures IsFinished(t, d) <==> IsFinished(s, d) {
    }
  }

  lemma StillUnfinished(s: Store, t: Store, x: JobId, order: seq<JobId>, c: JobId)
    requires StoreStructure(s) && x in s.jobs && ValidOrder(s, x, order)
    requires Woken(s, t, x, true, order) && !Blocked(s.jobs[x].status, false)
    requires c in s.jobs && s.jobs[c].status == Deferred && c !in order && x in s.jobs[c].deps
    ensures !AllFinished(t, s.jobs[c].deps)
  {
    assert c in Members(s.dependents, x);
    assert !Met(s, x, c);
    var d :| d in Members(s.dependencies, c) && d != x && !Satisfied(s, d, s.jobs[c].allowFailures);
    assert d in s.jobs[c].deps && !IsFinished(t, d);
  }

  lemma OncePerRescan(s: Store, t: Store, x: JobId, st: JobStatus, order: seq<JobId>, c: JobId, n: nat)
    requires ValidOrderFor(s, x, st, order)
    requires Woken(s, t, x, false, order) && forall j :: j in order ==> !IsFinished(s, j)
    requires Blocked(st, false)
    requires OnceAllFinished(s, c, n)
    ensures OnceAllFinished(t, c, n + if c in order then 1 else 0)
  {
    if !s.jobs[c].allowFailures {
      assert c !in order;
      SameFinished(s, t, x, false, order, s.jobs[c].deps);
    }
  }

  /** Events that wake nobody leave a job's count right. */
  lemma OnceUndisturbed(s: Store, t: Store, c: JobId, n: nat)
    requires OnceAllFinished(s, c, n)
    requires forall j :: j in s.jobs ==> j in t.jobs && t.jobs[j].deps == s.jobs[j].deps
    requires forall j :: j in s.jobs ==> t.jobs[j].allowFailures == s.jobs[j].allowFailures
    requires forall j :: j in s.jobs ==> (t.jobs[j].status == Finished <==> s.jobs[j].status == Finished)
    requires t.jobs[c].status == Deferred <==> s.jobs[c].status == Deferred
    ensures OnceAllFinished(t, c, n)
  {
    assert forall d :: d in s.jobs[c].deps ==> (IsFinished(t, d) <==> IsFinished(s, d));
  }

  lemma CompleteKept(p: Protocol, e: Event, c: JobId)
    requires StoreStructure(p.store) && Accounted(p) && Enabled(p, e) && Orderly(p, e)
    requires c in p.store.jobs && OnceAllFinished(p.store, c, Pushes(p, c))
    requires c in Apply(p, e).complete
    ensures OnceAllFinished(Apply(p, e).store, c, Pushes(Apply(p, e), c))
  {
    var s, t := p.store, Apply(p, e).store;
    match e
    case FinishJob(x, order) =>
      FinishIsWoken(s, x, order);
      OncePerFinish(s, t, x, order, c, Pushes(p, c));
    case Rescan(x, order, local) =>
      WakeIsWoken(s, x, order);
      OncePerRescan(s, t, x, StatusSeen(s, x, local), order, c, Pushes(p, c));
    case _ => CompleteUndisturbed(p, e, c);
  }

  lemma CompleteUndisturbed(p: Protocol, e: Event, c: JobId)
    requires Accounted(p) && Enabled(p, e) && FinishedStay(p, e) && !e.FinishJob? && !e.Rescan?
    requires c in p.store.jobs && OnceAllFinished(p.store, c, Pushes(p, c))
    requires e.SetStatus? && e.j == c ==> p.store.jobs[c].status != Deferred
    ensures OnceAllFinished(Apply(p, e).store, c, Pushes(Apply(p, e), c))
  {
    PushesOfOthersKept(p, e, c);
    OnceUndisturbed(p.store, Apply(p, e).store, c, Pushes(p, c));
  }

  lemma PushesOfOthersKept(p: Protocol, e: Event, c: JobId)
    requires Enabled(p, e) && !e.FinishJob? && !e.Rescan? && c in p.store.jobs
    ensures Pushes(Apply(p, e), c) == Pushes(p, c)
  {
  }

  lemma FinishedKept(p: Protocol, e: Event, d: JobId)
    requires Enabled(p, e) && FinishedStay(p, e) && IsFinished(p.store, d)
    ensures IsFinished(Apply(p, e).store, d)
  {
    match e
    case FinishJob(x, order) => FinishIsWoken(p.store, x, order);
    case Rescan(x, order, _) => WakeIsWoken(p.store, x, order);
    case _ =>
  }

  lemma ExactlyOnceKept(p: Protocol, e: Event)
    requires StoreStructure(p.store) && Accounted(p) && Enabled(p, e) && Orderly(p, e)
    requires ExactlyOnce(p)
    ensures ExactlyOnce(Apply(p, e))
  {
    var p' := Apply(p, e);
    forall c | c in p'.complete && c in p'.cleared
      ensures AllFinished(p'.store, p'.cleared[c].deps)
    {
      forall d | d in p'.cleared[c].deps ensures IsFinished(p'.store, d) {
        if c in p.cleared { FinishedKept(p, e, d); }
      }
    }
    forall c | c in p'.complete
      ensures c in p'.cleared || c in p'.store.jobs
      ensures c in p'.store.jobs ==> OnceAllFinished(p'.store, c, Pushes(p', c))
    {
      if c in p.complete && c in p.store.jobs {
        CompleteKept(p, e, c);
      } else {
        NewlyComplete(p, e, c);
      }
    }
  }

  /** A job that has just been parked, cleared or pushed on the fast path. */
  lemma NewlyComplete(p: Protocol, e: Event, c: JobId)
    requires Accounted(p) && Enabled(p, e) && FinishedStay(p, e) && ExactlyOnce(p)
    requires c in Apply(p, e).complete && !(c in p.complete && c in p.store.jobs)
    ensures var p' := Apply(p, e);
      && (c in p'.cleared || c in p'.store.jobs)
      && (c in p'.store.jobs ==> OnceAllFinished(p'.store, c, Pushes(p', c)))
  {
    var s, t := p.store, Apply(p, e).store;
    match e
    case ParkJob(j, h) =>
      if c == j {
        var d :| d in h.deps && Pending(s, d);
        assert !IsFinished(t, d);
      }
    case PushCleared(j, _) =>
      if c == j {
        assert forall d :: d in p.cleared[c].deps ==> IsFinished(s, d) && IsFinished(t, d);
      }
    case FinishJob(x, order) => FinishIsWoken(s, x, order);
    case Rescan(x, order, _) => WakeIsWoken(s, x, order);
    case _ =>
  }

  // ---------- Whole serial runs ----------

  ghost predicate Invariant(p: Protocol) {
    && StoreStructure(p.store)
    && Accounted(p)
    && NoLostWakeUp(p.store)
    && ExactlyOnce(p)
  }

  lemma InvariantKept(p: Protocol, e: Event)
    requires Invariant(p) && Enabled(p, e) && Orderly(p, e)
    ensures Invariant(Apply(p, e))
  {
    StoreStructureKept(p, e);
    AccountedKept(p, e);
    NoLostWakeUpKept(p, e);
    ExactlyOnceKept(p, e);
  }

  lemma {:induction false} SerialRunsKeepInvariant(p: Protocol, es: seq<Event>, p': Protocol)
    requires Invariant(p) && Serial(p, es, p') && OrderlyRun(p, es)
    ensures Invariant(p')
    decreases |es|
  {
    if es != [] {
      InvariantKept(p, es[0]);
      SerialRunsKeepInvariant(Apply(p, es[0]), es[1..], p');
    }
  }

  /** Only the first condition matters for lost wake-ups. */
  ghost predicate CleanRun(p: Protocol, es: seq<Event>)
    decreases |es|
  {
    es == [] || (Enabled(p, es[0]) && CleanFinish(p, es[0]) && CleanRun(Apply(p, es[0]), es[1..]))
  }

  lemma {:induction false} CleanRunsLoseNothing(p: Protocol, es: seq<Event>, p': Protocol)
    requires StoreStructure(p.store) && NoLostWakeUp(p.store) && Serial(p, es, p') && CleanRun(p, es)
    ensures StoreStructure(p'.store) && NoLostWakeUp(p'.store)
    decreases |es|
  {
    if es != [] {
      StoreStructureKept(p, es[0]);
      NoLostWakeUpKept(p, es[0]);
      CleanRunsLoseNothing(Apply(p, es[0]), es[1..], p');
    }
  }

  // ---------- Single transactions ----------

  /** A job is woken only when each dependency has finished, is gone, is the one
      finishing in this transaction, or failed while failures are allowed; an abandoned
      one whose cleanup is about to mark it counts as failed. */
  lemma WakesAreNotEarly(p: Protocol, e: Event, c: JobId, d: JobId)
    requires StoreStructure(p.store) && Enabled(p, e) && CleanRescan(p, e)
    requires c in Wakes(e) && c in p.store.jobs && d in p.store.jobs[c].deps
    ensures || d !in p.store.jobs
            || p.store.jobs[d].status == Finished
            || (e.FinishJob? && d == e.p)
            || (p.store.jobs[c].allowFailures && p.store.jobs[d].status == Failed)
            || (p.store.jobs[c].allowFailures && e.Rescan? && d == e.p && e.local == Some(Failed))
  {
    var s := p.store;
    assert c in Members(s.dependents, e.p);
    if d != e.p { assert d in Members(s.dependencies, c); }
  }

  /** The status a scan goes by. */
  function ScanStatus(p: Protocol, e: Event): JobStatus
    requires (e.FinishJob? || e.Rescan?) && e.p in p.store.jobs
  {
    if e.Rescan? && e.local.Some? then e.local.value else p.store.jobs[e.p].status
  }

  /** No dependent is woken by a parent found canceled or stopped, and by a failed one only
      if the dependent allows that. */
  lemma WakesSpareTheOthers(p: Protocol, e: Event, c: JobId)
    requires Enabled(p, e) && (e.FinishJob? || e.Rescan?) && c in Wakes(e)
    ensures c in p.store.jobs && e.p in p.store.jobs
    ensures ScanStatus(p, e) != Canceled && ScanStatus(p, e) != Stopped
    ensures ScanStatus(p, e) == Failed ==> p.store.jobs[c].allowFailures
  {
    MetForExactly(p.store, e.p, ScanStatus(p, e), c);
  }

  /** `pushes` is what really reaches the lists: a push adds the job once to the
      list of its origin, and a transaction adds no other entry anywhere. */
  lemma PushesReachQueues(p: Protocol, e: Event, q: QueueName, j: JobId)
    requires StoreStructure(p.store) && Accounted(p) && Enabled(p, e) && !e.SetQueues?
    ensures var p' := Apply(p, e);
      multiset(ListAt(p'.store.queues, q))[j]
        + (if j in p'.store.jobs && p'.store.jobs[j].origin == q then Pushes(p, j) else 0)
      == multiset(ListAt(p.store.queues, q))[j]
        + (if j in p'.store.jobs && p'.store.jobs[j].origin == q then Pushes(p', j) else 0)
  {
    match e
    case FinishJob(x, order) => WakesReachQueues(p, e, q, j);
    case Rescan(x, order, _) => WakesReachQueues(p, e, q, j);
    case _ =>
  }

  lemma WakesReachQueues(p: Protocol, e: Event, q: QueueName, j: JobId)
    requires Enabled(p, e) && (e.FinishJob? || e.Rescan?)
    ensures var p' := Apply(p, e);
      && Pushes(p', j) == Pushes(p, j) + (if j in Wakes(e) then 1 else 0)
      && (j in p'.store.jobs <==> j in p.store.jobs)
      && (j in p.store.jobs ==> p'.store.jobs[j].origin == p.store.jobs[j].origin)
      && multiset(ListAt(p'.store.queues, q))[j] == multiset(ListAt(p.store.queues, q))[j]
           + (if j in Wakes(e) && j in p.store.jobs && p.store.jobs[j].origin == q then 1 else 0)
  {
    EnqueueAllQueues(p.store, p.store.jobs, Wakes(e), q, j);
    EnqueueAllEffect(p.store, p.store.jobs, Wakes(e));
  }

  // ---------- Runs in which nothing unusual is asked for ----------

  /** Jobs name existing dependencies, do not allow failures, and are not canceled
      while they wait; finished ones are left alone. */
  ghost predicate Plain(p: Protocol, e: Event) {
    match e
    case ParkJob(_, h) => !h.allowFailures && forall d :: d in h.deps ==> d in p.store.jobs
    case ClearJob(_, h) => !h.allowFailures && forall d :: d in h.deps ==> d in p.store.jobs
    case SetStatus(j, _) =>
      j in p.store.jobs && p.store.jobs[j].status != Deferred && p.store.jobs[j].status != Finished
    case _ => true
  }

  ghost predicate AllComplete(p: Protocol) {
    && p.store.jobs.Keys + p.cleared.Keys <= p.complete
    && (forall c :: c in p.store.jobs ==> !p.store.jobs[c].allowFailures)
    && (forall c :: c in p.cleared ==> !p.cleared[c].allowFailures)
  }

  lemma AllCompleteKept(p: Protocol, e: Event)
    requires AllComplete(p) && Enabled(p, e) && Plain(p, e)
    ensures AllComplete(Apply(p, e))
  {
    match e
    case FinishJob(x, order) => FinishIsWoken(p.store, x, order);
    case Rescan(x, order, _) => WakeIsWoken(p.store, x, order);
    case _ =>
  }

  lemma RescansAllowFailures(p: Protocol, e: Event, c: JobId)
    requires Enabled(p, e) && CleanRescan(p, e) && e.Rescan? && c in e.order
    ensures c in p.store.jobs && p.store.jobs[c].allowFailures
  {
  }

  /** There, finished jobs stay finished without anybody having to promise it:
      only DEFERRED jobs are ever woken. */
  lemma PlainRunsKeepFinished(p: Protocol, e: Event)
    requires Invariant(p) && AllComplete(p) && Enabled(p, e) && Plain(p, e)
    requires CleanFinish(p, e) && CleanRescan(p, e) && FirstFinish(p, e)
    ensures FinishedStay(p, e)
    ensures forall c :: c in Wakes(e) ==> p.store.jobs[c].status == Deferred && Pushes(p, c) == 0
  {
    forall c | c in Wakes(e) ensures p.store.jobs[c].status == Deferred && Pushes(p, c) == 0 {
      assert c in p.complete && OnceAllFinished(p.store, c, Pushes(p, c));
      if e.FinishJob? {
        NotPickedEarly(p.store, e.p, p.store.jobs[e.p].status, Wakes(e), c);
        assert !AllFinished(p.store, p.store.jobs[c].deps);
      } else {
        RescansAllowFailures(p, e, c);
      }
    }
  }

  ghost predicate PlainRun(p: Protocol, es: seq<Event>)
    decreases |es|
  {
    || es == []
    || (&& Enabled(p, es[0]) && Plain(p, es[0])
        && CleanFinish(p, es[0]) && CleanRescan(p, es[0]) && FirstFinish(p, es[0])
        && PlainRun(Apply(p, es[0]), es[1..]))
  }

  lemma {:induction false} PlainRunsAreOrderly(p: Protocol, es: seq<Event>)
    requires Invariant(p) && AllComplete(p) && PlainRun(p, es)
    ensures OrderlyRun(p, es)
    decreases |es|
  {
    if es != [] {
      PlainRunsKeepFinished(p, es[0]);
      InvariantKept(p, es[0]);
      AllCompleteKept(p, es[0]);
      PlainRunsAreOrderly(Apply(p, es[0]), es[1..]);
    }
  }
}
