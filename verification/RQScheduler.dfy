/** The scheduler process (rq/scheduler.py), undisturbed: taking, refreshing and
    releasing its locks, and one iteration of its loop. */
module RQScheduler {
  import opened Common
  import L = SchedulerLocks
  import D = ScheduledDrain

  /** `DEFAULT_SCHEDULER_FALLBACK_PERIOD`, in seconds. */
  const FALLBACK_PERIOD := 120
  const CHUNK_SIZE := 1000

  type Locks = map<QueueName, L.Lock>

  /** The names SET NX would succeed for. */
  ghost function Free(locks: Locks, now: nat, names: set<QueueName>): set<QueueName> {
    set n | n in names && !L.Present(locks, now, n)
  }

  ghost predicate Taken(before: Locks, after: Locks, names: set<QueueName>, pid: nat, expiry: nat) {
    && after.Keys == before.Keys + names
    && (forall n :: n in names ==> after[n] == L.Lock(pid, expiry))
    && (forall n :: n in before && n !in names ==> after[n] == before[n])
  }

  /** One call's effect on every registry: a chunk of each named one is moved. */
  function Drained(stores: map<QueueName, D.Store>, names: set<QueueName>, ts: int): map<QueueName, D.Store> {
    map n | n in stores :: if n in names then D.Pass(stores[n], ts, 1000) else stores[n]
  }

  // ---------- Taking over ----------

  datatype Lease = Lease(held: set<QueueName>, lastAttempt: Option<nat>)

  /** One round of a scheduler's loop: its time, and the lock keys it finds. */
  datatype Turn = Turn(now: nat, locks: Locks)

  /** The free names are added on the first round, and on every round that comes more
      than 120 seconds after the last attempt, until all names are held. */
  ghost function NextLease(names: set<QueueName>, l: Lease, r: Turn): Lease {
    if l.held != names && (l.lastAttempt.None? || r.now > l.lastAttempt.value + 120)
      then Lease(l.held + Free(r.locks, r.now, names), Some(r.now))
      else l
  }

  ghost function LeaseAfter(names: set<QueueName>, l: Lease, rounds: seq<Turn>): Lease
    decreases |rounds|
  {
    if rounds == [] then l else LeaseAfter(names, NextLease(names, l, rounds[0]), rounds[1..])
  }

  ghost predicate InOrder(rounds: seq<Turn>) {
    forall i, k :: 0 <= i < k < |rounds| ==> rounds[i].now <= rounds[k].now
  }

  /** The key is never there in these rounds. */
  ghost predicate AlwaysFree(rounds: seq<Turn>, n: QueueName) {
    forall r :: r in rounds ==> n !in r.locks || r.locks[n].expiry <= r.now
  }

  lemma {:induction false} LeaseInTwo(names: set<QueueName>, l: Lease, a: seq<Turn>, b: seq<Turn>)
    ensures LeaseAfter(names, l, a + b) == LeaseAfter(names, LeaseAfter(names, l, a), b)
    decreases |a|
  {
    if a == [] {
      assert a + b == b;
    } else {
      assert (a + b)[0] == a[0] && (a + b)[1..] == a[1..] + b;
      LeaseInTwo(names, NextLease(names, l, a[0]), a[1..], b);
    }
  }

  lemma {:induction false} AttemptsWereBefore(names: set<QueueName>, l: Lease, rounds: seq<Turn>, u: nat)
    requires forall r :: r in rounds ==> r.now <= u
    requires l.lastAttempt.Some? ==> l.lastAttempt.value <= u
    ensures LeaseAfter(names, l, rounds).lastAttempt.Some? ==> LeaseAfter(names, l, rounds).lastAttempt.value <= u
    decreases |rounds|
  {
    if rounds != [] { AttemptsWereBefore(names, NextLease(names, l, rounds[0]), rounds[1..], u); }
  }

  lemma {:induction false} HeldStays(names: set<QueueName>, l: Lease, rounds: seq<Turn>, n: QueueName)
    requires n in l.held
    ensures n in LeaseAfter(names, l, rounds).held
    decreases |rounds|
  {
    if rounds != [] { HeldStays(names, NextLease(names, l, rounds[0]), rounds[1..], n); }
  }

  lemma {:induction false} TakenOnceFree(names: set<QueueName>, l: Lease, rounds: seq<Turn>, n: QueueName, u: nat)
    requires n in names && rounds != [] && AlwaysFree(rounds, n)
    requires l.lastAttempt.Some? ==> l.lastAttempt.value <= u
    requires rounds[|rounds| - 1].now > u + 120
    ensures n in LeaseAfter(names, l, rounds).held
    decreases |rounds|
  {
    var l1 := NextLease(names, l, rounds[0]);
    assert rounds[0] in rounds;
    if n in l1.held {
      HeldStays(names, l1, rounds[1..], n);
    } else {
      assert l1 == l;
      TakenOnceFree(names, l, rounds[1..], n, u);
    }
  }

  /** A name whose key is gone from round k on, its scheduler having died, is held by a
      scheduler that serves it after any round more than 120 seconds later than that one,
      whatever it held and whenever it tried before. */
  lemma TakenOverInTime(names: set<QueueName>, rounds: seq<Turn>, n: QueueName, k: nat)
    requires n in names && InOrder(rounds) && k < |rounds| && AlwaysFree(rounds[k..], n)
    requires rounds[|rounds| - 1].now > rounds[k].now + 120
    ensures n in LeaseAfter(names, Lease({}, None), rounds).held
  {
    var l := LeaseAfter(names, Lease({}, None), rounds[..k]);
    AttemptsWereBefore(names, Lease({}, None), rounds[..k], rounds[k].now);
    TakenOnceFree(names, l, rounds[k..], n, rounds[k].now);
    assert rounds == rounds[..k] + rounds[k..];
    LeaseInTwo(names, Lease({}, None), rounds[..k], rounds[k..]);
  }

  /** In between nothing is tried: within 120 seconds of an attempt a round takes no name. */
  lemma {:induction false} NothingTriedBefore(names: set<QueueName>, l: Lease, rounds: seq<Turn>)
    requires l.lastAttempt.Some? && forall r :: r in rounds ==> r.now <= l.lastAttempt.value + 120
    ensures LeaseAfter(names, l, rounds) == l
    decreases |rounds|
  {
    if rounds != [] {
      assert rounds[0] in rounds;
      NothingTriedBefore(names, l, rounds[1..]);
    }
  }

  class Scheduler {
    const queueNames: set<QueueName>
    const interval: nat
    const pid: nat
    var acquiredLocks: set<QueueName>
    var scheduledJobRegistries: seq<QueueName>
    var lockAcquisitionTime: Option<nat>
    var locks: Locks
    var stores: map<QueueName, D.Store>

    constructor (names: set<QueueName>, interval: nat, pid: nat, locks: Locks, stores: map<QueueName, D.Store>)
      ensures queueNames == names && this.interval == interval && this.pid == pid
      ensures this.locks == locks && this.stores == stores
      ensures acquiredLocks == {} && lockAcquisitionTime.None? && Valid()
    {
      queueNames, this.interval, this.pid := names, interval, pid;
      acquiredLocks, scheduledJobRegistries, lockAcquisitionTime := {}, [], None;
      this.locks, this.stores := locks, stores;
    }

    /** Once prepared, the registries are those of the acquired names. */
    ghost predicate Valid()
      reads this
    {
      scheduledJobRegistries == [] || (NoDup(scheduledJobRegistries) && ToSet(scheduledJobRegistries) == acquiredLocks)
    }

    predicate ShouldReacquireLocks(now: nat)
      reads this
    {
      queueNames != acquiredLocks
      && (lockAcquisitionTime.None? || now - lockAcquisitionTime.value > FALLBACK_PERIOD)
    }

    /** What it holds, and when it last tried to get more. */
    ghost function LeaseNow(): Lease
      reads this
    {
      Lease(acquiredLocks, lockAcquisitionTime)
    }

    /** Exactly the free names are taken, for interval + 60 seconds. */
    method AcquireLocks(now: nat) returns (successful: set<QueueName>)
      modifies this`locks, this`acquiredLocks, this`scheduledJobRegistries, this`lockAcquisitionTime
      ensures successful == Free(old(locks), now, queueNames)
      ensures Taken(old(locks), locks, successful, pid, now + interval + 60)
      ensures acquiredLocks == old(acquiredLocks) + successful
      ensures scheduledJobRegistries == [] && lockAcquisitionTime == Some(now)
    {
      successful := {};
      var rest := queueNames;
      while rest != {}
        invariant rest <= queueNames && acquiredLocks == old(acquiredLocks)
        invariant successful == Free(old(locks), now, queueNames - rest)
        invariant Taken(old(locks), locks, successful, pid, now + interval + 60)
        decreases rest
      {
        var n :| n in rest;
        rest := rest - {n};
        assert L.Present(locks, now, n) == L.Present(old(locks), now, n);
        if !L.Present(locks, now, n) {
          locks := locks[n := L.Lock(pid, now + interval + 60)];
          successful := successful + {n};
        }
      }
      assert queueNames - rest == queueNames;
      scheduledJobRegistries := [];
      acquiredLocks := acquiredLocks + successful;
      lockAcquisitionTime := Some(now);
    }

    method Heartbeat(now: nat)
      modifies this`locks
      ensures locks == L.Expire(old(locks), now, acquiredLocks, interval + 60)
    {
      var rest := acquiredLocks;
      while rest != {}
        invariant rest <= acquiredLocks
        invariant locks == L.Expire(old(locks), now, acquiredLocks - rest, interval + 60)
        decreases rest
      {
        var n :| n in rest;
        rest := rest - {n};
        if L.Present(locks, now, n) {
          locks := locks[n := locks[n].(expiry := now + interval + 60)];
        }
      }
      assert acquiredLocks - rest == acquiredLocks;
    }

    method ReleaseLocks()
      modifies this`locks, this`acquiredLocks
      ensures locks == L.Delete(old(locks), old(acquiredLocks)) && acquiredLocks == {}
    {
      locks := L.Delete(locks, acquiredLocks);
      acquiredLocks := {};
    }

    method PrepareRegistries()
      modifies this`scheduledJobRegistries
      ensures NoDup(scheduledJobRegistries) && ToSet(scheduledJobRegistries) == acquiredLocks
    {
      scheduledJobRegistries := [];
      var rest := acquiredLocks;
      while rest != {}
        invariant rest <= acquiredLocks && NoDup(scheduledJobRegistries)
        invariant ToSet(scheduledJobRegistries) == acquiredLocks - rest
        decreases rest
      {
        var n :| n in rest;
        rest := rest - {n};
        assert n !in ToSet(scheduledJobRegistries);
        scheduledJobRegistries := scheduledJobRegistries + [n];
      }
    }

    /** Two loops, as in the pipeline: all the pushes, then all the removals. */
    method MoveToQueue(s: D.Store, es: seq<D.Entry>) returns (t: D.Store)
      ensures t == D.Moved(s, es)
    {
      t := s;
      var i := 0;
      while i < |es|
        invariant i <= |es| && t.registry == s.registry
        invariant Pushed(t, es[i..]) == Pushed(s, es)
      {
        assert es[i..][1..] == es[i + 1..];
        t := D.PushOne(t, es[i].id);
        i := i + 1;
      }
      assert es[i..] == [];
      i := 0;
      while i < |es|
        invariant i <= |es| && t.jobs == Pushed(s, es).jobs && t.queue == Pushed(s, es).queue
        invariant RemovedAll(t.registry, es[i..]) == RemovedAll(s.registry, es)
      {
        assert es[i..][1..] == es[i + 1..];
        t := t.(registry := D.Without(t.registry, es[i].id));
        i := i + 1;
      }
      assert es[i..] == [];
      MovedIsPushedThenRemoved(s, es);
    }

    /** A chunk of every acquired queue's due jobs is moved; other queues and all locks
        are left alone. */
    method EnqueueScheduledJobs(timestamp: int)
      requires Valid()
      modifies this`scheduledJobRegistries, this`stores
      ensures Valid()
      ensures stores == Drained(old(stores), acquiredLocks, timestamp)
    {
      if scheduledJobRegistries == [] && acquiredLocks != {} {
        PrepareRegistries();
      }
      assert ToSet(scheduledJobRegistries) == acquiredLocks;
      var names := scheduledJobRegistries;
      var i := 0;
      while i < |names|
        invariant i <= |names| && scheduledJobRegistries == names
        invariant stores == Drained(old(stores), ToSet(names[..i]), timestamp)
      {
        var n := names[i];
        assert n !in ToSet(names[..i]);
        assert ToSet(names[..i + 1]) == ToSet(names[..i]) + {n};
        if n in stores {
          var due := D.Take(D.Due(stores[n].registry, timestamp), CHUNK_SIZE);
          if due != [] {
            var s := MoveToQueue(stores[n], due);
            stores := stores[n := s];
          }
        }
        i := i + 1;
      }
      assert names[..i] == names;
    }

    /** One iteration of the loop: locks first, if it is time, then the jobs of exactly
        the names held, then the refresh. Every name held afterwards is good until
        interval + 60 seconds from now, if its key was still there. */
    method Iterate(now: nat)
      requires Valid()
      modifies this
      ensures Valid()
      ensures LeaseNow() == NextLease(queueNames, old(LeaseNow()), Turn(now, old(locks)))
      ensures stores == Drained(old(stores), acquiredLocks, now)
      ensures forall n ::
        (n in acquiredLocks && (n !in old(acquiredLocks) || L.Present(old(locks), now, n))
         ==> n in locks && locks[n].expiry == now + interval + 60)
      ensures forall n :: n in old(locks) && n !in acquiredLocks ==> n in locks && locks[n] == old(locks)[n]
    {
      if ShouldReacquireLocks(now) {
        var _ := AcquireLocks(now);
      }
      EnqueueScheduledJobs(now);
      Heartbeat(now);
    }
  }

  function Pushed(s: D.Store, es: seq<D.Entry>): D.Store
    decreases |es|
  {
    if es == [] then s else Pushed(D.PushOne(s, es[0].id), es[1..])
  }

  function RemovedAll(r: seq<D.Entry>, es: seq<D.Entry>): seq<D.Entry>
    decreases |es|
  {
    if es == [] then r else RemovedAll(D.Without(r, es[0].id), es[1..])
  }

  lemma {:induction false} PushedIgnoresRegistry(s: D.Store, es: seq<D.Entry>, r: seq<D.Entry>)
    ensures Pushed(s.(registry := r), es) == Pushed(s, es).(registry := r)
    decreases |es|
  {
    if es != [] { PushedIgnoresRegistry(D.PushOne(s, es[0].id), es[1..], r); }
  }

  lemma {:induction false} MovedIsPushedThenRemoved(s: D.Store, es: seq<D.Entry>)
    ensures D.Moved(s, es) == Pushed(s, es).(registry := RemovedAll(s.registry, es))
    decreases |es|
  {
    if es != [] {
      var t := D.PushOne(s, es[0].id);
      var r := D.Without(s.registry, es[0].id);
      MovedIsPushedThenRemoved(t.(registry := r), es[1..]);
      PushedIgnoresRegistry(t, es[1..], r);
    }
  }
}
