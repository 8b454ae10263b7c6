/** The dependency operations of `Queue` and `Worker` as one client performs them
    when nobody interferes (rq/queue.py, rq/job.py, rq/worker/base.py). Each is
    proved against the transaction it stands for in DependencyStore.dfy. */
module DependencyQueue {
  import opened Common
  import opened DependencyStore
  import opened DependencyProtocol

  class Client {
    var store: Store

    constructor (s: Store)
      ensures store == s
    {
      store := s;
    }

    /** One SADD on each dependency's dependents set and on the job's own
        dependencies set, after the ZADD to the deferred registry. */
    method RegisterDependency(c: JobId, h: JobHash)
      modifies this
      ensures store == old(store).(
        deferred := old(store).deferred[h.origin := Members(old(store).deferred, h.origin) + {c}],
        dependents := AddDependents(old(store).dependents, c, h.deps),
        dependencies := if h.deps == [] then old(store).dependencies
                        else old(store).dependencies[c := Members(old(store).dependencies, c) + ToSet(h.deps)])
    {
      store := store.(deferred := store.deferred[h.origin := Members(store.deferred, h.origin) + {c}]);
      var i := 0;
      while i < |h.deps|
        invariant i <= |h.deps|
        invariant store.jobs == old(store).jobs && store.queues == old(store).queues
        invariant store.deferred == old(store).deferred[h.origin := Members(old(store).deferred, h.origin) + {c}]
        invariant AddDependents(store.dependents, c, h.deps[i..]) == AddDependents(old(store).dependents, c, h.deps)
        invariant store.dependencies == if i == 0 then old(store).dependencies
          else old(store).dependencies[c := Members(old(store).dependencies, c) + ToSet(h.deps[..i])]
      {
        var d := h.deps[i];
        assert h.deps[i..][1..] == h.deps[i + 1..];
        assert ToSet(h.deps[..i + 1]) == ToSet(h.deps[..i]) + {d};
        assert Members(store.dependencies, c) + {d} == Members(old(store).dependencies, c) + ToSet(h.deps[..i + 1]);
        store := store.(dependents := store.dependents[d := Members(store.dependents, d) + {c}],
                        dependencies := store.dependencies[c := Members(store.dependencies, c) + {d}]);
        i := i + 1;
      }
      assert h.deps[..i] == h.deps;
    }

    /** Parks the job if any dependency that exists has not finished. */
    method SetupDependencies(c: JobId, h: JobHash) returns (parked: bool)
      modifies this
      ensures parked <==> exists d :: d in h.deps && d in old(store).jobs && old(store).jobs[d].status != Finished
      ensures parked ==> store == Park(old(store), c, h)
      ensures !parked ==> store == old(store)
    {
      var i := 0;
      while i < |h.deps|
        invariant i <= |h.deps|
        invariant store == old(store)
        invariant forall k :: 0 <= k < i ==> !Pending(store, h.deps[k])
      {
        if Pending(store, h.deps[i]) {
          RegisterDependency(c, h);
          store := store.(jobs := store.jobs[c := h.(status := Deferred)]);
          return true;
        }
        i := i + 1;
      }
      return false;
    }

    /** `enqueue_job`: parked, or pushed at once. */
    method EnqueueJob(c: JobId, h: JobHash, front: bool) returns (parked: bool)
      modifies this
      ensures parked <==> exists d :: d in h.deps && d in old(store).jobs && old(store).jobs[d].status != Finished
      ensures store == if parked then Park(old(store), c, h) else Enqueue(old(store), c, h, front)
    {
      parked := SetupDependencies(c, h);
      if !parked {
        store := Enqueue(store, c, h, front);
      }
    }

    /** The dependents that are saved, ready and not canceled, in some order. */
    method ReadyDependents(x: JobId) returns (order: seq<JobId>)
      requires x in store.jobs
      ensures NoDup(order)
      ensures forall c :: c in order <==>
        c in Members(store.dependents, x) && c in store.jobs && Met(store, x, c) && store.jobs[c].status != Canceled
    {
      order := [];
      var rest := Members(store.dependents, x);
      while rest != {}
        invariant rest <= Members(store.dependents, x)
        invariant NoDup(order)
        invariant forall c :: c in order <==>
          c in Members(store.dependents, x) - rest && c in store.jobs && Met(store, x, c) && store.jobs[c].status != Canceled
        decreases rest
      {
        var c :| c in rest;
        rest := rest - {c};
        if c in store.jobs && Met(store, x, c) && store.jobs[c].status != Canceled {
          order := order + [c];
        }
      }
    }

    method EnqueueDependents(x: JobId) returns (order: seq<JobId>)
      requires x in store.jobs
      modifies this
      ensures ValidOrder(old(store), x, order)
      ensures forall c :: c in order <==>
        c in Members(old(store).dependents, x) && c in old(store).jobs && old(store).jobs[c].status != Canceled
        && (var s, h, st := old(store), old(store).jobs[c], old(store).jobs[x].status;
            && st != Canceled && st != Stopped && (st == Failed ==> h.allowFailures)
            && forall d :: d in Members(s.dependencies, c) && d != x && d in s.jobs ==>
                 s.jobs[d].status == Finished || (s.jobs[d].status == Failed && h.allowFailures))
      ensures store == Wake(old(store), old(store).jobs, x, order)
    {
      order := ReadyDependents(x);
      forall c | c in store.jobs { MetForExactly(store, x, store.jobs[x].status, c); }
      var hs := store.jobs;
      var i := 0;
      while i < |order|
        invariant i <= |order| && hs == old(store).jobs
        invariant store.dependents == old(store).dependents
        invariant EnqueueAll(store, hs, order[i..]) == EnqueueAll(old(store), hs, order)
      {
        assert order[i..][0] == order[i] && order[i..][1..] == order[i + 1..];
        assert order[i] in hs;
        store := Enqueue(store, order[i], hs[order[i]], hs[order[i]].atFront);
        i := i + 1;
      }
      assert order[i..] == [];
      store := store.(dependents := DropDependents(store.dependents, x, order));
    }

    /** `handle_job_success`, undisturbed: one FinishJob event of the protocol. */
    method HandleJobSuccess(x: JobId) returns (order: seq<JobId>)
      requires x in store.jobs && store.jobs[x].status == Started
      modifies this
      ensures ValidOrder(old(store), x, order)
      ensures forall c :: c in order <==>
        c in Members(old(store).dependents, x) && c in old(store).jobs && old(store).jobs[c].status != Canceled
        && (var s, h, st := old(store), old(store).jobs[c], old(store).jobs[x].status;
            && st != Canceled && st != Stopped && (st == Failed ==> h.allowFailures)
            && forall d :: d in Members(s.dependencies, c) && d != x && d in s.jobs ==>
                 s.jobs[d].status == Finished || (s.jobs[d].status == Failed && h.allowFailures))
      ensures store == Finish(old(store), old(store).jobs, x, order)
    {
      order := EnqueueDependents(x);
      EnqueueAllEffect(old(store), old(store).jobs, order);
      store := store.(jobs := store.jobs[x := store.jobs[x].(status := Finished)]);
    }
  }
}
