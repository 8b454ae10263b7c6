/** `Job.cancel(enqueue_dependents=True)` (rq/job.py). The nested wake-up changes
    the key cancel itself watches, so its own EXEC can fail; this model shows how
    often, and what is left behind. */
module CancelDependents {
  import opened Common
  import opened DependencyStore

  datatype Outcome = Done(attempts: nat, woken: seq<JobId>) | InvalidJobOperation

  /** `dependencies_are_met` with the canceled parent excluded: its status is ignored. */
  predicate MetWithout(s: Store, x: JobId, c: JobId)
    requires c in s.jobs
  {
    forall d :: d in Members(s.dependencies, c) && d != x ==> Satisfied(s, d, s.jobs[c].allowFailures)
  }

  predicate Eligible(s: Store, x: JobId, c: JobId) {
    && c in Members(s.dependents, x) && c in s.jobs
    && MetWithout(s, x, c) && s.jobs[c].status != Canceled
  }

  /** The order one pass wakes its dependents in: each ready one, once. */
  predicate Picked(s: Store, x: JobId, order: seq<JobId>) {
    && NoDup(order)
    && (forall c :: c in order ==> c in s.jobs && Eligible(s, x, c))
    && (forall c :: c in Members(s.dependents, x) && Eligible(s, x, c) ==> c in order)
  }

  /** Of the saved dependents that are not canceled, those are woken whose other recorded
      dependencies are all gone, finished, or failed where allowed. */
  lemma PickedExactly(s: Store, x: JobId, order: seq<JobId>, c: JobId)
    requires Picked(s, x, order)
    ensures c in order <==>
      && c in Members(s.dependents, x) && c in s.jobs && s.jobs[c].status != Canceled
      && forall d :: d in Members(s.dependencies, c) && d != x && d in s.jobs ==>
           s.jobs[d].status == Finished || (s.jobs[d].status == Failed && s.jobs[c].allowFailures)
  {
  }

  /** Queued jobs satisfy nobody, so waking some dependents readies no other. */
  lemma NobodyElseReady(s: Store, x: JobId, order: seq<JobId>, c: JobId)
    requires Picked(s, x, order)
    ensures !Eligible(Wake(s, s.jobs, x, order), x, c)
  {
    EnqueueAllEffect(s, s.jobs, order);
    var t := Wake(s, s.jobs, x, order);
    if c in Members(t.dependents, x) && c in t.jobs && t.jobs[c].status != Canceled {
      assert c in Members(s.dependents, x) && c !in order;
      assert !MetWithout(s, x, c);
      var d :| d in Members(s.dependencies, c) && d != x && !Satisfied(s, d, s.jobs[c].allowFailures);
      assert !Satisfied(t, d, t.jobs[c].allowFailures);
    }
  }

  /** The registries of the job's queue other than the deferred one; an entry of
      `started` stands for the job's executions. */
  datatype Registries = Registries(
    finished: set<JobId>,
    failed: set<JobId>,
    started: set<JobId>,
    scheduled: set<JobId>,
    canceled: set<JobId>)

  /** The registry a job leaves, chosen by the status Redis still shows for it. */
  function Unregister(r: Registries, st: JobStatus, x: JobId): Registries {
    match st
    case Finished => r.(finished := r.finished - {x})
    case Failed => r.(failed := r.failed - {x})
    case Stopped => r.(failed := r.failed - {x})
    case Started => r.(started := r.started - {x})
    case Scheduled => r.(scheduled := r.scheduled - {x})
    case Canceled => r.(canceled := r.canceled - {x})
    case _ => r
  }

  function AddCanceled(r: Registries, x: JobId): Registries {
    r.(canceled := r.canceled + {x})
  }

  class Canceler {
    var store: Store
    var registries: Registries
    var version: nat // of the watched dependents key

    constructor (s: Store, r: Registries)
      ensures store == s && registries == r
    {
      store, registries, version := s, r, 0;
    }

    /** The nested `enqueue_dependents(exclude_job_id=x)`, with its own pipeline. */
    method WakeDependents(x: JobId) returns (order: seq<JobId>)
      modifies this`store, this`version
      ensures Picked(old(store), x, order)
      ensures store == Wake(old(store), old(store).jobs, x, order)
      ensures order == [] ==> store == old(store) && version == old(version)
      ensures order != [] ==> version > old(version)
    {
      order := [];
      var rest := Members(store.dependents, x);
      while rest != {}
        invariant rest <= Members(store.dependents, x) && NoDup(order)
        invariant forall c :: c in order <==> c !in rest && Eligible(store, x, c)
        invariant store == old(store) && version == old(version)
        decreases rest
      {
        var c :| c in rest;
        rest := rest - {c};
        if Eligible(store, x, c) { order := order + [c]; }
      }
      if order != [] {
        store := Wake(store, store.jobs, x, order);
        version := version + 1;
      }
    }

    /** `_remove_from_registries`: sent at once, because the connection is watching. */
    method RemoveFromRegistries(x: JobId)
      requires x in store.jobs
      modifies this`store, this`registries
      ensures store == Removed(old(store), x)
      ensures registries == Unregister(old(registries), old(store).jobs[x].status, x)
    {
      var h := store.jobs[x];
      store := store.(queues := store.queues[h.origin := RemoveFirst(ListAt(store.queues, h.origin), x)]);
      if h.status == Deferred {
        store := store.(deferred := store.deferred[h.origin := Members(store.deferred, h.origin) - {x}]);
      } else {
        registries := Unregister(registries, h.status, x);
      }
    }

    /** One pass of the loop up to EXEC, which fails if the watched key changed. */
    method OnePass(x: JobId) returns (order: seq<JobId>, conflict: bool)
      requires x in store.jobs && store.jobs[x].status != Canceled
      modifies this
      ensures Picked(old(store), x, order) && (conflict <==> order != [])
      ensures var w := Wake(old(store), old(store).jobs, x, order);
        && x in w.jobs && w.jobs[x].status != Canceled
        && store == Removed(w, x)
        && registries == AddCanceled(Unregister(old(registries), w.jobs[x].status, x), x)
    {
      var seen := version; // WATCH
      order := WakeDependents(x);
      WakeKeepsSaved(old(store), x, order);
      RemoveFromRegistries(x);
      registries := AddCanceled(registries, x);
      conflict := version != seen;
    }

    /** The WATCH loop. Undisturbed it takes one pass if no dependent is ready and
        exactly two otherwise; every ready dependent is woken once, and the job ends
        up CANCELED and in the canceled registry. */
    method Cancel(x: JobId) returns (r: Outcome)
      requires x in store.jobs
      modifies this
      ensures r.InvalidJobOperation? <==> old(store).jobs[x].status == Canceled
      ensures r.InvalidJobOperation? ==> store == old(store) && registries == old(registries)
      ensures r.Done? ==>
        && NoDup(r.woken) && Picked(old(store), x, r.woken)
        && r.attempts == (if r.woken == [] then 1 else 2)
      ensures r.Done? ==> forall c :: c in r.woken <==>
        && c in Members(old(store).dependents, x) && c in old(store).jobs && old(store).jobs[c].status != Canceled
        && forall d :: d in Members(old(store).dependencies, c) && d != x && d in old(store).jobs ==>
             || old(store).jobs[d].status == Finished
             || (old(store).jobs[d].status == Failed && old(store).jobs[c].allowFailures)
      ensures r.Done? ==>
        var w := Wake(old(store), old(store).jobs, x, r.woken);
        && x in w.jobs
        && store == SetCanceled(RemovedTimes(w, x, r.attempts), x)
        && registries == AddCanceled(Unregister(old(registries), w.jobs[x].status, x), x)
      ensures r.Done? && WhereNamed(old(store), old(registries), x) && x !in Members(old(store).dependents, x)
        ==> OnlyCanceled(store, registries, x)
    {
      if store.jobs[x].status == Canceled { return InvalidJobOperation; }
      ghost var s0, r0 := store, registries;
      var woken, conflict := OnePass(x);
      ghost var w := Wake(s0, s0.jobs, x, woken);
      forall c { PickedExactly(s0, x, woken, c); }
      var attempts := 1;
      while conflict
        invariant x in w.jobs && w.jobs[x].status != Canceled
        invariant store == RemovedTimes(w, x, attempts)
        invariant registries == AddCanceled(Unregister(old(registries), w.jobs[x].status, x), x)
        invariant attempts == if woken != [] && !conflict then 2 else 1
        decreases conflict
      {
        var order;
        order, conflict := OnePass(x);
        SecondPass(s0, w, x, woken, order);
        attempts := attempts + 1;
      }
      store := SetCanceled(store, x); // EXEC of the one buffered command
      if WhereNamed(s0, r0, x) && x !in Members(s0.dependents, x) {
        OnlyInCanceledRegistry(s0, r0, x, woken, attempts);
      }
      return Done(attempts, woken);
    }
  }

  lemma WakeNobody(s: Store, x: JobId)
    ensures Wake(s, s.jobs, x, []) == s
  {
  }

  /** LREM, and ZREM from the deferred registry if the status says so. */
  function Removed(s: Store, x: JobId): Store
    requires x in s.jobs
  {
    var h := s.jobs[x];
    s.(queues := s.queues[h.origin := RemoveFirst(ListAt(s.queues, h.origin), x)],
       deferred := if h.status == Deferred then s.deferred[h.origin := Members(s.deferred, h.origin) - {x}] else s.deferred)
  }

  function RemovedTimes(s: Store, x: JobId, n: nat): (t: Store)
    requires x in s.jobs
    ensures t.jobs == s.jobs
  {
    if n == 0 then s else Removed(RemovedTimes(s, x, n - 1), x)
  }

  function SetCanceled(s: Store, x: JobId): Store
    requires x in s.jobs
  {
    s.(jobs := s.jobs[x := s.jobs[x].(status := Canceled)])
  }

  lemma WakeKeepsSaved(s: Store, x: JobId, order: seq<JobId>)
    requires x in s.jobs && s.jobs[x].status != Canceled
    requires Picked(s, x, order)
    ensures var w := Wake(s, s.jobs, x, order);
      x in w.jobs && w.jobs[x].status != Canceled
  {
    EnqueueAllEffect(s, s.jobs, order);
  }

  lemma SecondPassWakesNobody(s: Store, x: JobId, woken: seq<JobId>, order: seq<JobId>)
    requires x in s.jobs && s.jobs[x].status != Canceled
    requires Picked(s, x, woken)
    requires x in Wake(s, s.jobs, x, woken).jobs
    requires Picked(Removed(Wake(s, s.jobs, x, woken), x), x, order)
    ensures order == []
  {
    if order != [] {
      var c := order[0];
      assert c in order;
      NobodyElseReady(s, x, woken, c);
      assert false;
    }
  }

  /** A second pass only repeats the removals. */
  lemma SecondPass(s: Store, w: Store, x: JobId, woken: seq<JobId>, order: seq<JobId>)
    requires x in s.jobs && s.jobs[x].status != Canceled && Picked(s, x, woken)
    requires w == Wake(s, s.jobs, x, woken) && x in w.jobs
    requires Picked(Removed(w, x), x, order)
    ensures order == []
    ensures Wake(Removed(w, x), Removed(w, x).jobs, x, order) == Removed(w, x)
  {
    SecondPassWakesNobody(s, x, woken, order);
    WakeNobody(Removed(w, x), x);
  }

  /** The job is only where its status names it, and on its queue at most once. */
  ghost predicate WhereNamed(s: Store, r: Registries, x: JobId) {
    && x in s.jobs
    && multiset(ListAt(s.queues, s.jobs[x].origin))[x] <= 1
    && (x in Members(s.deferred, s.jobs[x].origin) ==> s.jobs[x].status == Deferred)
    && (x in r.finished ==> s.jobs[x].status == Finished)
    && (x in r.failed ==> s.jobs[x].status == Failed || s.jobs[x].status == Stopped)
    && (x in r.started ==> s.jobs[x].status == Started)
    && (x in r.scheduled ==> s.jobs[x].status == Scheduled)
  }

  /** CANCELED, in the canceled registry, and nowhere else. */
  ghost predicate OnlyCanceled(s: Store, r: Registries, x: JobId) {
    && x in s.jobs && s.jobs[x].status == Canceled && x in r.canceled
    && x !in ListAt(s.queues, s.jobs[x].origin) && x !in Members(s.deferred, s.jobs[x].origin)
    && x !in r.finished && x !in r.failed && x !in r.started && x !in r.scheduled
  }

  /** What cancel leaves, after however many attempts, of a job that was only where its
      status named it and does not depend on itself. */
  lemma OnlyInCanceledRegistry(s: Store, r: Registries, x: JobId, woken: seq<JobId>, attempts: nat)
    requires WhereNamed(s, r, x) && x !in Members(s.dependents, x) && Picked(s, x, woken) && attempts > 0
    ensures var w := Wake(s, s.jobs, x, woken);
      && x in w.jobs
      && OnlyCanceled(SetCanceled(RemovedTimes(w, x, attempts), x),
                      AddCanceled(Unregister(r, w.jobs[x].status, x), x), x)
  {
    var w, q := Wake(s, s.jobs, x, woken), s.jobs[x].origin;
    assert x !in woken;
    EnqueueAllEffect(s, s.jobs, woken);
    EnqueueAllQueues(s, s.jobs, woken, q, x);
    EnqueueAllDeferred(s, s.jobs, woken, q, x);
    RemovedTimesRemoves(w, x, attempts);
  }

  lemma {:induction false} RemovedTimesRemoves(w: Store, x: JobId, n: nat)
    requires x in w.jobs && n > 0
    requires multiset(ListAt(w.queues, w.jobs[x].origin))[x] <= 1
    requires x in Members(w.deferred, w.jobs[x].origin) ==> w.jobs[x].status == Deferred
    ensures var t := RemovedTimes(w, x, n);
      x !in ListAt(t.queues, w.jobs[x].origin) && x !in Members(t.deferred, w.jobs[x].origin)
  {
    if n > 1 { RemovedTimesRemoves(w, x, n - 1); }
    var q := w.jobs[x].origin;
    var u := RemovedTimes(w, x, n - 1);
    RemoveFirstCount(ListAt(u.queues, q), x);
    assert ListAt(Removed(u, x).queues, q) == RemoveFirst(ListAt(u.queues, q), x);
    assert multiset(ListAt(u.queues, q))[x] <= 1;
    assert x !in multiset(ListAt(Removed(u, x).queues, q));
  }
}
